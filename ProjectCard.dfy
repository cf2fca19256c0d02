/** The rules of a project card in the project catalogue: which icon an amenity
    gets (keywords tested in a fixed order on the lower-cased name), which
    amenities are shown and the "+N más" badge, the delivery status label, and the
    shortened description in the footer. */
module ProjectCard {
  import opened Wrappers

  datatype Icon = Dumbbell | Pool | Users | Building

  datatype Status = Listo | EnConstruccion

  function LowerChar(c: char): (l: char)
    ensures 'A' <= c <= 'Z' ==> l == (c as int + 32) as char
    ensures !('A' <= c <= 'Z') ==> l == c
  {
    if 'A' <= c <= 'Z' then (c as int + 32) as char else c
  }

  /** `toLowerCase()` on the ASCII letters (every keyword is ASCII). */
  function Lower(s: string): (r: string)
    ensures |r| == |s|
    ensures forall i :: 0 <= i < |s| ==> r[i] == LowerChar(s[i])
  {
    seq(|s|, i requires 0 <= i < |s| => LowerChar(s[i]))
  }

  /** `s.includes(part)`: `part` starts at some position of `s`. */
  predicate Includes(s: string, part: string) {
    part <= s || (|s| > 0 && Includes(s[1..], part))
  }

  lemma {:induction false} IncludesMeans(s: string, part: string)
    ensures Includes(s, part) <==> exists i :: 0 <= i <= |s| && part <= s[i..]
  {
    if Includes(s, part) {
      IncludesFound(s, part);
    }
    if exists i :: 0 <= i <= |s| && part <= s[i..] {
      var i :| 0 <= i <= |s| && part <= s[i..];
      IncludesAt(s, part, i);
    }
  }

  lemma {:induction false} IncludesFound(s: string, part: string)
    requires Includes(s, part)
    ensures exists i :: 0 <= i <= |s| && part <= s[i..]
  {
    if part <= s {
      assert s[0..] == s;
    } else {
      IncludesFound(s[1..], part);
      var i :| 0 <= i <= |s[1..]| && part <= s[1..][i..];
      assert s[1..][i..] == s[i + 1..];
    }
  }

  lemma {:induction false} IncludesAt(s: string, part: string, i: int)
    requires 0 <= i <= |s| && part <= s[i..]
    ensures Includes(s, part)
    decreases i
  {
    if i > 0 {
      assert s[1..][i - 1..] == s[i..];
      IncludesAt(s[1..], part, i - 1);
    } else {
      assert s[0..] == s;
    }
  }

  /** `getAmenityIcon`. */
  function AmenityIcon(amenity: string): (icon: Icon)
    ensures icon == Dumbbell <==> Includes(Lower(amenity), "gimnasio")
    ensures icon == Pool <==>
              !Includes(Lower(amenity), "gimnasio") && Includes(Lower(amenity), "piscina")
    ensures icon == Users <==>
              !Includes(Lower(amenity), "gimnasio") && !Includes(Lower(amenity), "piscina")
              && (Includes(Lower(amenity), "social") || Includes(Lower(amenity), "comunidad")
                  || Includes(Lower(amenity), "eventos") || Includes(Lower(amenity), "lounge"))
  {
    var lower := Lower(amenity);
    if Includes(lower, "gimnasio") then Dumbbell
    else if Includes(lower, "piscina") then Pool
    else if Includes(lower, "social") || Includes(lower, "comunidad")
            || Includes(lower, "eventos") || Includes(lower, "lounge") then Users
    else Building
  }

  /** Lower-casing twice is lower-casing once. */
  lemma LowerIdempotent(s: string)
    ensures Lower(Lower(s)) == Lower(s)
  {
    assert forall i :: 0 <= i < |s| ==> LowerChar(LowerChar(s[i])) == LowerChar(s[i]);
  }

  /** The icon does not depend on letter case. */
  lemma AmenityIconIgnoresCase(amenity: string)
    ensures AmenityIcon(Lower(amenity)) == AmenityIcon(amenity)
  {
    LowerIdempotent(amenity);
  }

  /** "Gimnasio" wins over every other keyword in the same name. */
  lemma GymComesFirst()
    ensures AmenityIcon("Gimnasio y Piscina") == Dumbbell
  {
    var gym := Lower("Gimnasio y Piscina");
    assert gym[..8] == "gimnasio";
    assert Includes(gym, "gimnasio");
  }

  /** The amenity chips: the first three, in order, each with its icon; nothing
      when the project lists no amenities. */
  function AmenityChips(amenities: Option<seq<string>>): (chips: seq<(string, Icon)>)
    ensures amenities.None? ==> chips == []
    ensures amenities.Some? ==>
              |chips| == if |amenities.value| < 3 then |amenities.value| else 3
    ensures amenities.Some? ==>
              forall i :: 0 <= i < |chips| ==>
                chips[i] == (amenities.value[i], AmenityIcon(amenities.value[i]))
  {
    if amenities.None? then []
    else
      var shown := if |amenities.value| <= 3 then amenities.value else amenities.value[..3];
      seq(|shown|, i requires 0 <= i < |shown| => (shown[i], AmenityIcon(shown[i])))
  }

  /** The "+N más" badge: present exactly when there are more than three
      amenities, counting the ones not shown. */
  function OverflowBadge(amenities: Option<seq<string>>): (n: Option<int>)
    ensures n.Some? <==> amenities.Some? && |amenities.value| > 3
    ensures n.Some? ==> n.value == |amenities.value| - 3 && n.value > 0
  {
    if amenities.Some? && |amenities.value| > 3 then Some(|amenities.value| - 3) else None
  }

  /** Every amenity is either shown as a chip or counted by the badge. */
  lemma ChipsAndBadgeCoverAll(amenities: seq<string>)
    ensures |AmenityChips(Some(amenities))|
            + (match OverflowBadge(Some(amenities)) case Some(n) => n case None => 0)
            == |amenities|
  {
  }

  /** The status label: "Listo" exactly for that value, anything else (also no
      value) reads as under construction. */
  function DeliveryStatus(condicion: Option<string>): (s: Status)
    ensures s == Listo <==> condicion == Some("Listo")
  {
    if condicion == Some("Listo") then Listo else EnConstruccion
  }

  /** The footer: `description.substring(0, 100)` followed by "...". */
  function Footer(description: string): (f: string)
    ensures |f| == (if |description| < 100 then |description| else 100) + 3
    ensures f[|f| - 3..] == "..."
    ensures f[..|f| - 3] <= description
  {
    (if |description| <= 100 then description else description[..100]) + "..."
  }
}
