/** The logic of the payment-plan service around its document-store calls:
    turning a stored document into a `PaymentPlan` with defaults for missing or
    empty fields, the page/cursor rule of the listing, and the merge of the two
    prefix searches (by client and by project). What the store returns for a query
    is an input sequence of snapshots here; "now" is a parameter. */
module PlanService {
  import opened Dates
  import opened PlanTypes
  import opened Wrappers

  /** One element of a stored `payments` array; a `date` is present when it is a
      stored timestamp. */
  datatype PaymentDoc = PaymentDoc(id: Option<int>, date: Option<Date>,
                                   ordinary: Option<real>, extra: Option<real>)

  /** A stored document's fields, each possibly missing. `payments` is `None`
      when the stored value is missing or is not an array. */
  datatype PlanDoc = PlanDoc(
    client: Option<string>,
    project: Option<string>,
    unit: Option<string>,
    currency: Option<string>,
    price: Option<real>,
    reservation: Option<real>,
    signature: Option<real>,
    reservationPercent: Option<real>,
    signaturePercent: Option<real>,
    reservationSignatuerPercent: Option<real>,
    duringConstruction: Option<real>,
    duringConstructionPercent: Option<real>,
    atDelivery: Option<real>,
    atDeliveryPercent: Option<real>,
    deliveryDate: Option<Date>,
    reservationDate: Option<Date>,
    signatureDate: Option<Date>,
    firstPaymentDate: Option<Date>,
    lastPaymentDate: Option<Date>,
    frequency: Option<string>,
    payments: Option<seq<PaymentDoc>>,
    createdAt: Option<Date>,
    updatedAt: Option<Date>)

  /** A query result document: its id and its data. */
  datatype Snapshot = Snapshot(id: string, data: PlanDoc)

  /** A plan as the service returns it, with its document id and timestamps. */
  datatype StoredPlan = StoredPlan(id: string, plan: PaymentPlan, createdAt: Date, updatedAt: Date)

  /** `value || fallback` for a text field: missing or empty gives the fallback. */
  function TextOr(o: Option<string>, fallback: string): (s: string)
    ensures TextReadAs(o, fallback, s)
  {
    if o.Some? && o.value != "" then o.value else fallback
  }

  /** `value || 0` for a number field (a stored 0 is kept as 0 anyway). */
  function NumberOr0(o: Option<real>): (x: real)
    ensures ReadAs(o, 0.0, x)
  {
    if o.Some? then o.value else 0.0
  }

  /** `value ? toDate(value) : new Date()`. */
  function DateOrNow(o: Option<Date>, now: Date): (d: Date)
    ensures ReadAs(o, now, d)
  {
    if o.Some? then o.value else now
  }

  /** A text field read with `value || fallback`: a stored non-empty text is
      kept, a missing or empty one gives the fallback. */
  predicate TextReadAs(o: Option<string>, fallback: string, v: string) {
    (o.Some? && o.value != "" ==> v == o.value) && (o.None? || o.value == "" ==> v == fallback)
  }

  /** Any other field: a stored value is kept, a missing one gives the fallback. */
  predicate ReadAs<T(==)>(o: Option<T>, fallback: T, v: T) {
    (o.Some? ==> v == o.value) && (o.None? ==> v == fallback)
  }

  /** The `map` over a stored payments array: a missing or 0 id becomes the
      position plus one, a missing amount 0, a missing date now. */
  function ConvertPayments(docs: seq<PaymentDoc>, now: Date): (ps: seq<Payment>)
    ensures |ps| == |docs|
    ensures forall i :: 0 <= i < |docs| ==>
              && (docs[i].id.Some? && docs[i].id.value != 0 ==> ps[i].id == docs[i].id.value)
              && (docs[i].id.None? || docs[i].id.value == 0 ==> ps[i].id == i + 1)
              && ReadAs(docs[i].date, now, ps[i].date)
              && ReadAs(docs[i].ordinary, 0.0, ps[i].ordinary)
              && ReadAs(docs[i].extra, 0.0, ps[i].extra)
  {
    seq(|docs|, i requires 0 <= i < |docs| =>
      Payment(
        if docs[i].id.Some? && docs[i].id.value != 0 then docs[i].id.value else i + 1,
        DateOrNow(docs[i].date, now),
        NumberOr0(docs[i].ordinary),
        NumberOr0(docs[i].extra)))
  }

  /** `convertFirestorePaymentPlan`: the result carries the document's id. */
  function Convert(snap: Snapshot, now: Date): (r: StoredPlan)
    ensures r.id == snap.id
  {
    var d := snap.data;
    StoredPlan(
      snap.id,
      PaymentPlan(
        client := TextOr(d.client, ""),
        project := TextOr(d.project, ""),
        unit := TextOr(d.unit, ""),
        currency := TextOr(d.currency, "USD"),
        price := NumberOr0(d.price),
        reservation := NumberOr0(d.reservation),
        signature := NumberOr0(d.signature),
        reservationPercent := NumberOr0(d.reservationPercent),
        signaturePercent := NumberOr0(d.signaturePercent),
        reservationSignatuerPercent := NumberOr0(d.reservationSignatuerPercent),
        duringConstruction := NumberOr0(d.duringConstruction),
        duringConstructionPercent := NumberOr0(d.duringConstructionPercent),
        atDelivery := NumberOr0(d.atDelivery),
        atDeliveryPercent := NumberOr0(d.atDeliveryPercent),
        deliveryDate := DateOrNow(d.deliveryDate, now),
        reservationDate := DateOrNow(d.reservationDate, now),
        signatureDate := DateOrNow(d.signatureDate, now),
        firstPaymentDate := DateOrNow(d.firstPaymentDate, now),
        lastPaymentDate := DateOrNow(d.lastPaymentDate, now),
        frequency := TextOr(d.frequency, "trimestral"),
        payments := if d.payments.Some? then ConvertPayments(d.payments.value, now) else []),
      DateOrNow(d.createdAt, now),
      DateOrNow(d.updatedAt, now))
  }

  /** An idealised document holding every field of `plan` as it is. (The
      application itself stores the current time in every date field, so its
      dates do not come back unchanged.) */
  function ToDoc(s: StoredPlan): PlanDoc {
    var p := s.plan;
    PlanDoc(
      Some(p.client), Some(p.project), Some(p.unit), Some(p.currency),
      Some(p.price), Some(p.reservation), Some(p.signature),
      Some(p.reservationPercent), Some(p.signaturePercent), Some(p.reservationSignatuerPercent),
      Some(p.duringConstruction), Some(p.duringConstructionPercent),
      Some(p.atDelivery), Some(p.atDeliveryPercent),
      Some(p.deliveryDate), Some(p.reservationDate), Some(p.signatureDate),
      Some(p.firstPaymentDate), Some(p.lastPaymentDate),
      Some(p.frequency),
      Some(seq(|p.payments|, i requires 0 <= i < |p.payments| =>
        PaymentDoc(Some(p.payments[i].id), Some(p.payments[i].date),
                   Some(p.payments[i].ordinary), Some(p.payments[i].extra)))),
      Some(s.createdAt), Some(s.updatedAt))
  }

  /** Plans that the defaulting leaves alone: a currency and a frequency are set
      and no installment id is 0. */
  predicate Normalized(s: StoredPlan) {
    s.plan.currency != "" && s.plan.frequency != ""
    && forall i :: 0 <= i < |s.plan.payments| ==> s.plan.payments[i].id != 0
  }

  /** Every converted plan is normalized. */
  lemma ConvertNormalizes(snap: Snapshot, now: Date)
    ensures Normalized(Convert(snap, now))
  {
  }

  /** Storing a normalized plan and reading it back gives the same plan. */
  lemma ConvertRoundTrip(s: StoredPlan, now: Date)
    requires Normalized(s)
    ensures Convert(Snapshot(s.id, ToDoc(s)), now) == s
  {
    var r := Convert(Snapshot(s.id, ToDoc(s)), now);
    assert r.plan.payments == s.plan.payments;
  }

  /** Reading is idempotent: converting an already converted plan again changes
      nothing. */
  lemma ConvertIdempotent(snap: Snapshot, now: Date, later: Date)
    ensures var s := Convert(snap, now);
      Convert(Snapshot(s.id, ToDoc(s)), later) == s
  {
    ConvertNormalizes(snap, now);
    ConvertRoundTrip(Convert(snap, now), later);
  }

  /** Field by field: a stored value is kept and a missing one takes its default
      ("" for the names, "USD", "trimestral", 0 for every amount and percentage,
      now for every date); `payments` that is not an array gives no payments, an
      array is read element by element. */
  lemma ConvertDefaults(snap: Snapshot, now: Date)
    ensures var d, r := snap.data, Convert(snap, now);
      var p := r.plan;
      && TextReadAs(d.client, "", p.client)
      && TextReadAs(d.project, "", p.project)
      && TextReadAs(d.unit, "", p.unit)
      && TextReadAs(d.currency, "USD", p.currency)
      && TextReadAs(d.frequency, "trimestral", p.frequency)
      && ReadAs(d.price, 0.0, p.price)
      && ReadAs(d.reservation, 0.0, p.reservation)
      && ReadAs(d.signature, 0.0, p.signature)
      && ReadAs(d.reservationPercent, 0.0, p.reservationPercent)
      && ReadAs(d.signaturePercent, 0.0, p.signaturePercent)
      && ReadAs(d.reservationSignatuerPercent, 0.0, p.reservationSignatuerPercent)
      && ReadAs(d.duringConstruction, 0.0, p.duringConstruction)
      && ReadAs(d.duringConstructionPercent, 0.0, p.duringConstructionPercent)
      && ReadAs(d.atDelivery, 0.0, p.atDelivery)
      && ReadAs(d.atDeliveryPercent, 0.0, p.atDeliveryPercent)
      && ReadAs(d.deliveryDate, now, p.deliveryDate)
      && ReadAs(d.reservationDate, now, p.reservationDate)
      && ReadAs(d.signatureDate, now, p.signatureDate)
      && ReadAs(d.firstPaymentDate, now, p.firstPaymentDate)
      && ReadAs(d.lastPaymentDate, now, p.lastPaymentDate)
      && ReadAs(d.createdAt, now, r.createdAt)
      && ReadAs(d.updatedAt, now, r.updatedAt)
      && (d.payments.None? ==> p.payments == [])
      && (d.payments.Some? ==> p.payments == ConvertPayments(d.payments.value, now))
  {
  }

  // ---------------------------------------------------------------------------
  // Listing

  /** What `getPaymentPlans` returns. */
  datatype PlanPage = PlanPage(plans: seq<StoredPlan>, lastDoc: Option<Snapshot>, hasMore: bool)

  function ConvertAll(snaps: seq<Snapshot>, now: Date): (plans: seq<StoredPlan>)
    ensures |plans| == |snaps|
    ensures forall i :: 0 <= i < |snaps| ==> plans[i] == Convert(snaps[i], now)
  {
    seq(|snaps|, i requires 0 <= i < |snaps| => Convert(snaps[i], now))
  }

  lemma ConvertAllAppend(snaps: seq<Snapshot>, snap: Snapshot, now: Date)
    ensures ConvertAll(snaps + [snap], now) == ConvertAll(snaps, now) + [Convert(snap, now)]
  {
  }

  /** The result processing of `getPaymentPlans` over the documents of one query. */
  method GetPaymentPlans(results: seq<Snapshot>, pageSize: int, now: Date) returns (page: PlanPage)
    ensures page.plans == ConvertAll(results, now)
    ensures page.lastDoc == if results == [] then None else Some(results[|results| - 1])
    ensures page.hasMore <==> |results| == pageSize
  {
    var plans: seq<StoredPlan> := [];
    var lastDoc: Option<Snapshot> := None;
    var i := 0;
    while i < |results|
      invariant 0 <= i <= |results|
      invariant plans == ConvertAll(results[..i], now)
      invariant lastDoc == if i == 0 then None else Some(results[i - 1])
    {
      ConvertAllAppend(results[..i], results[i], now);
      assert results[..i + 1] == results[..i] + [results[i]];
      plans := plans + [Convert(results[i], now)];
      lastDoc := Some(results[i]);
      i := i + 1;
    }
    assert results[..i] == results;
    page := PlanPage(plans, lastDoc, |plans| == pageSize);
  }

  // ---------------------------------------------------------------------------
  // Search

  /** `clientResults.some(plan => plan.id === id)`. */
  predicate HasId(plans: seq<StoredPlan>, id: string) {
    |plans| > 0 && (plans[0].id == id || HasId(plans[1..], id))
  }

  /** `.some` is true exactly when some plan carries the id. */
  lemma {:induction false} HasIdMeans(plans: seq<StoredPlan>, id: string)
    ensures HasId(plans, id) <==> exists i :: 0 <= i < |plans| && plans[i].id == id
  {
    if |plans| > 0 {
      HasIdMeans(plans[1..], id);
      if HasId(plans[1..], id) {
        var i :| 0 <= i < |plans[1..]| && plans[1..][i].id == id;
        assert plans[i + 1].id == id;
      }
      if exists i :: 0 <= i < |plans| && plans[i].id == id {
        var i :| 0 <= i < |plans| && plans[i].id == id;
        if i > 0 {
          assert plans[1..][i - 1].id == id;
        }
      }
    }
  }

  /** The project-query documents whose id is not among the client results. */
  function Surviving(clientResults: seq<StoredPlan>, projectDocs: seq<Snapshot>): (r: seq<Snapshot>)
    ensures forall i :: 0 <= i < |r| ==> !HasId(clientResults, r[i].id)
    ensures |r| <= |projectDocs|
  {
    if projectDocs == [] then []
    else
      var rest := Surviving(clientResults, projectDocs[1..]);
      assert projectDocs == [projectDocs[0]] + projectDocs[1..];
      if HasId(clientResults, projectDocs[0].id) then rest else [projectDocs[0]] + rest
  }

  /** The filter keeps exactly the project documents whose id is not a client
      result's: every one of them survives, and nothing else does. */
  lemma {:induction false} SurvivingKeeps(clientResults: seq<StoredPlan>, projectDocs: seq<Snapshot>)
    ensures forall x :: x in Surviving(clientResults, projectDocs) ==> x in projectDocs
    ensures forall x :: x in projectDocs && !HasId(clientResults, x.id) ==>
              x in Surviving(clientResults, projectDocs)
  {
    if projectDocs != [] {
      SurvivingKeeps(clientResults, projectDocs[1..]);
      assert projectDocs == [projectDocs[0]] + projectDocs[1..];
    }
  }

  function Min(a: int, b: int): int {
    if a <= b then a else b
  }

  /** What `searchPaymentPlans` returns for the two query results. */
  function SearchResult(clientDocs: seq<Snapshot>, projectDocs: seq<Snapshot>, maxResults: nat, now: Date)
    : (r: seq<StoredPlan>)
    ensures |r| <= maxResults
    ensures |r| == Min(maxResults, |clientDocs| + |Surviving(ConvertAll(clientDocs, now), projectDocs)|)
  {
    var clientResults := ConvertAll(clientDocs, now);
    var merged := clientResults + ConvertAll(Surviving(clientResults, projectDocs), now);
    merged[..Min(maxResults, |merged|)]
  }

  /** The result processing of `searchPaymentPlans`. */
  method SearchPaymentPlans(clientDocs: seq<Snapshot>, projectDocs: seq<Snapshot>, maxResults: nat, now: Date)
    returns (found: seq<StoredPlan>)
    ensures found == SearchResult(clientDocs, projectDocs, maxResults, now)
  {
    var clientResults: seq<StoredPlan> := [];
    var i := 0;
    while i < |clientDocs|
      invariant 0 <= i <= |clientDocs|
      invariant clientResults == ConvertAll(clientDocs[..i], now)
    {
      ClientStep(clientDocs, i, now);
      clientResults := clientResults + [Convert(clientDocs[i], now)];
      i := i + 1;
    }
    assert clientDocs[..i] == clientDocs;
    var projectResults: seq<StoredPlan> := [];
    var j := 0;
    while j < |projectDocs|
      invariant 0 <= j <= |projectDocs|
      invariant projectResults == ConvertAll(Surviving(clientResults, projectDocs[..j]), now)
    {
      ProjectStep(clientResults, projectDocs, j, now);
      if !HasId(clientResults, projectDocs[j].id) {
        projectResults := projectResults + [Convert(projectDocs[j], now)];
      }
      j := j + 1;
    }
    assert projectDocs[..j] == projectDocs;
    var merged := clientResults + projectResults;
    found := merged[..Min(maxResults, |merged|)];
  }

  /** One turn of the client loop: the next document's plan is appended. */
  lemma ClientStep(clientDocs: seq<Snapshot>, i: nat, now: Date)
    requires i < |clientDocs|
    ensures ConvertAll(clientDocs[..i + 1], now) == ConvertAll(clientDocs[..i], now) + [Convert(clientDocs[i], now)]
  {
    ConvertAllAppend(clientDocs[..i], clientDocs[i], now);
    assert clientDocs[..i + 1] == clientDocs[..i] + [clientDocs[i]];
  }

  /** One turn of the project loop: the next document's plan is appended
      exactly when its id is no client result's. */
  lemma ProjectStep(clientResults: seq<StoredPlan>, projectDocs: seq<Snapshot>, j: nat, now: Date)
    requires j < |projectDocs|
    ensures ConvertAll(Surviving(clientResults, projectDocs[..j + 1]), now)
            == ConvertAll(Surviving(clientResults, projectDocs[..j]), now)
               + (if HasId(clientResults, projectDocs[j].id) then [] else [Convert(projectDocs[j], now)])
  {
    SurvivingAppend(clientResults, projectDocs[..j], projectDocs[j]);
    assert projectDocs[..j + 1] == projectDocs[..j] + [projectDocs[j]];
    if !HasId(clientResults, projectDocs[j].id) {
      ConvertAllAppend(Surviving(clientResults, projectDocs[..j]), projectDocs[j], now);
    }
  }

  lemma {:induction false} SurvivingAppend(clientResults: seq<StoredPlan>, docs: seq<Snapshot>, doc: Snapshot)
    ensures Surviving(clientResults, docs + [doc])
            == Surviving(clientResults, docs) + (if HasId(clientResults, doc.id) then [] else [doc])
  {
    if docs == [] {
      assert [doc][1..] == [];
    } else {
      assert (docs + [doc])[1..] == docs[1..] + [doc];
      SurvivingAppend(clientResults, docs[1..], doc);
    }
  }

  /** The client results come first, then the surviving project results, both
      in query order. */
  lemma SearchResultElements(clientDocs: seq<Snapshot>, projectDocs: seq<Snapshot>, maxResults: nat, now: Date)
    ensures var r := SearchResult(clientDocs, projectDocs, maxResults, now);
      var surviving := Surviving(ConvertAll(clientDocs, now), projectDocs);
      && (forall i :: 0 <= i < |r| && i < |clientDocs| ==> r[i] == Convert(clientDocs[i], now))
      && (forall i :: |clientDocs| <= i < |r| ==> r[i] == Convert(surviving[i - |clientDocs|], now))
  {
    SearchResultClients(clientDocs, projectDocs, maxResults, now);
    SearchResultProjects(clientDocs, projectDocs, maxResults, now);
  }

  /** The `merged` list before truncation, in terms of the two converted lists. */
  lemma {:induction false} SearchResultPrefix(clientDocs: seq<Snapshot>, projectDocs: seq<Snapshot>, maxResults: nat, now: Date)
    ensures var clientResults := ConvertAll(clientDocs, now);
      var projectResults := ConvertAll(Surviving(clientResults, projectDocs), now);
      var n := Min(maxResults, |clientResults| + |projectResults|);
      && n <= |clientResults| + |projectResults|
      && SearchResult(clientDocs, projectDocs, maxResults, now) == (clientResults + projectResults)[..n]
  {
  }

  /** The client half of `merged`. */
  lemma {:induction false} SearchResultClients(clientDocs: seq<Snapshot>, projectDocs: seq<Snapshot>, maxResults: nat, now: Date)
    ensures var r := SearchResult(clientDocs, projectDocs, maxResults, now);
      forall i :: 0 <= i < |r| && i < |clientDocs| ==> r[i] == Convert(clientDocs[i], now)
  {
    var clientResults := ConvertAll(clientDocs, now);
    var projectResults := ConvertAll(Surviving(clientResults, projectDocs), now);
    var n := Min(maxResults, |clientResults| + |projectResults|);
    SearchResultPrefix(clientDocs, projectDocs, maxResults, now);
    PrefixOfConcat(clientResults, projectResults, n);
  }

  /** The project half of `merged`. */
  lemma {:induction false} SearchResultProjects(clientDocs: seq<Snapshot>, projectDocs: seq<Snapshot>, maxResults: nat, now: Date)
    ensures var r := SearchResult(clientDocs, projectDocs, maxResults, now);
      var surviving := Surviving(ConvertAll(clientDocs, now), projectDocs);
      forall i :: |clientDocs| <= i < |r| ==> r[i] == Convert(surviving[i - |clientDocs|], now)
  {
    var clientResults := ConvertAll(clientDocs, now);
    var surviving := Surviving(clientResults, projectDocs);
    var n := Min(maxResults, |clientResults| + |surviving|);
    SearchResultPrefix(clientDocs, projectDocs, maxResults, now);
    ConvertedTail(SearchResult(clientDocs, projectDocs, maxResults, now), clientResults, |clientDocs|, surviving, n, now);
  }

  /** Past the `k` plans `c`, the first `n` elements `r` of `c + ConvertAll(s)`
      are the converted documents of `s`, in order. */
  lemma ConvertedTail(r: seq<StoredPlan>, c: seq<StoredPlan>, k: nat, s: seq<Snapshot>, n: nat, now: Date)
    requires |c| == k && n <= k + |s|
    requires r == (c + ConvertAll(s, now))[..n]
    ensures forall i :: k <= i < |r| ==> r[i] == Convert(s[i - k], now)
  {
    PrefixOfConcat(c, ConvertAll(s, now), n);
  }

  /** Position `i` of the first `n` elements of `a + b` is `a[i]` inside `a`
      and `b[i - |a|]` past it. */
  lemma PrefixOfConcat<X>(a: seq<X>, b: seq<X>, n: nat)
    requires n <= |a| + |b|
    ensures forall i :: 0 <= i < n && i < |a| ==> (a + b)[..n][i] == a[i]
    ensures forall i :: |a| <= i < n ==> (a + b)[..n][i] == b[i - |a|]
  {
  }

  /** At most `maxResults` plans; the client results first in query order; after
      them only project results whose id is the id of no client-query document,
      in query order. */
  lemma SearchResultShape(clientDocs: seq<Snapshot>, projectDocs: seq<Snapshot>, maxResults: nat, now: Date)
    ensures var r := SearchResult(clientDocs, projectDocs, maxResults, now);
      var surviving := Surviving(ConvertAll(clientDocs, now), projectDocs);
      && |r| <= maxResults
      && |r| == Min(maxResults, |clientDocs| + |surviving|)
      && (forall i :: 0 <= i < |r| && i < |clientDocs| ==> r[i] == Convert(clientDocs[i], now))
      && (forall i :: |clientDocs| <= i < |r| ==>
            r[i] == Convert(surviving[i - |clientDocs|], now)
            && forall j :: 0 <= j < |clientDocs| ==> r[i].id != clientDocs[j].id)
  {
    var clientResults := ConvertAll(clientDocs, now);
    var surviving := Surviving(clientResults, projectDocs);
    var r := SearchResult(clientDocs, projectDocs, maxResults, now);
    SearchResultElements(clientDocs, projectDocs, maxResults, now);
    forall i, j | |clientDocs| <= i < |r| && 0 <= j < |clientDocs|
      ensures r[i].id != clientDocs[j].id
    {
      var s := surviving[i - |clientDocs|];
      assert r[i].id == s.id;
      HasIdMeans(clientResults, s.id);
      assert clientResults[j].id == clientDocs[j].id;
    }
  }
}
