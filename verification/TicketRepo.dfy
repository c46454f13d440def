/** The string and random helpers of services/ticket/internal/repository/ticket_repo_mysql.go. */
module TicketRepo {

  const CHARSET := "ABCDEFGHIJKLMNOPQRSTUVWXYZ0123456789"
  const PREFIX := "TBK-"

  /** `substr` occurs in `s` at position `i`. */
  ghost predicate OccursAt(s: string, substr: string, i: nat) {
    i + |substr| <= |s| && s[i..i + |substr|] == substr
  }

  ghost predicate Occurs(s: string, substr: string) {
    exists i: nat :: OccursAt(s, substr, i)
  }

  /** What MySQL says about a uniqueness conflict, in either of the two wordings. */
  ghost predicate SaysDuplicate(error: string) {
    Occurs(error, "Duplicate entry") || Occurs(error, "duplicate key")
  }

  method SearchString(s: string, substr: string) returns (found: bool)
    ensures found <==> Occurs(s, substr)
  {
    var i := 0;
    while i <= |s| - |substr|
      invariant 0 <= i
      invariant forall j: nat :: j < i ==> !OccursAt(s, substr, j)
      decreases |s| - |substr| - i
    {
      if s[i..i + |substr|] == substr {
        assert OccursAt(s, substr, i);
        return true;
      }
      i := i + 1;
    }
    return false;
  }

  method Contains(s: string, substr: string) returns (found: bool)
    ensures found <==> Occurs(s, substr)
  {
    if |substr| <= |s| {
      found := SearchString(s, substr);
    } else {
      found := false;
    }
  }

  method IsDuplicateKey(error: string) returns (duplicate: bool)
    ensures duplicate <==> SaysDuplicate(error)
  {
    duplicate := Contains(error, "Duplicate entry");
    if !duplicate {
      duplicate := Contains(error, "duplicate key");
    }
  }

  predicate IsRefChar(c: char) { 'A' <= c <= 'Z' || '0' <= c <= '9' }

  /** TBK- and eight capital letters or digits. */
  ghost predicate WellFormedRef(ref: string) {
    |ref| == 12 && ref[..4] == "TBK-" && forall i :: 4 <= i < 12 ==> IsRefChar(ref[i])
  }

  /** Eight draws of the random source. */
  type Draw = d: seq<nat> | |d| == 8 && forall i :: 0 <= i < 8 ==> d[i] < 36 witness [0, 0, 0, 0, 0, 0, 0, 0]

  /** Each draw stands for a character of the alphabet, no two for the same. */
  lemma CharsetFacts()
    ensures |CHARSET| == 36
    ensures forall k: nat :: k < 36 ==> CHARSET[k] == if k < 26 then 'A' + k as char else '0' + (k - 26) as char
  {
  }

  function DrawnBy(c: char): nat
    requires IsRefChar(c)
  {
    if c <= '9' then 26 + (c - '0') as nat else (c - 'A') as nat
  }

  lemma CharDrawn(k: nat)
    requires k < 36
    ensures IsRefChar(CHARSET[k]) && DrawnBy(CHARSET[k]) == k
  {
    CharsetFacts();
  }

  lemma CharDrawnBy(c: char)
    requires IsRefChar(c)
    ensures DrawnBy(c) < 36 && CHARSET[DrawnBy(c)] == c
  {
    CharsetFacts();
  }

  function RefOf(draw: Draw): (ref: string)
    ensures |ref| == 12 && ref[..4] == "TBK-"
    ensures forall i :: 0 <= i < 8 ==> ref[4 + i] == CHARSET[draw[i]]
  {
    PREFIX + seq(8, i requires 0 <= i < 8 => CHARSET[draw[i]])
  }

  /** The draw behind a well-formed reference. */
  function DrawOf(ref: string): (draw: Draw)
    requires WellFormedRef(ref)
    ensures forall i :: 0 <= i < 8 ==> draw[i] == DrawnBy(ref[4 + i])
  {
    CharsDrawn(ref);
    seq(8, i requires 0 <= i < 8 => DrawnBy(ref[4 + i]))
  }

  lemma CharsDrawn(ref: string)
    requires WellFormedRef(ref)
    ensures forall i :: 4 <= i < 12 ==> DrawnBy(ref[i]) < 36
  {
    forall i | 4 <= i < 12 ensures DrawnBy(ref[i]) < 36 { CharDrawnBy(ref[i]); }
  }

  lemma DrawOfRef(draw: Draw)
    ensures WellFormedRef(RefOf(draw)) && DrawOf(RefOf(draw)) == draw
  {
    hide IsRefChar, DrawnBy;
    var ref := RefOf(draw);
    forall i | 0 <= i < 8 ensures IsRefChar(ref[4 + i]) && DrawnBy(ref[4 + i]) == draw[i] { CharDrawn(draw[i]); }
    forall i | 4 <= i < 12 ensures IsRefChar(ref[i]) { assert IsRefChar(ref[4 + (i - 4)]); }
  }

  lemma RefOfDraw(ref: string)
    requires WellFormedRef(ref)
    ensures RefOf(DrawOf(ref)) == ref
  {
    hide IsRefChar, DrawnBy;
    var r := RefOf(DrawOf(ref));
    forall i | 4 <= i < 12 ensures r[i] == ref[i] {
      CharDrawnBy(ref[i]);
      assert r[4 + (i - 4)] == CHARSET[DrawOf(ref)[i - 4]] && DrawOf(ref)[i - 4] == DrawnBy(ref[4 + (i - 4)]);
    }
    assert r == r[..4] + r[4..] && ref == ref[..4] + ref[4..];
  }

  /** Main result: the draws and the well-formed references correspond one to one, so that all
      36^8 references can be drawn and two draws collide only if they are the same. */
  lemma RefsAreDraws(a: Draw, b: Draw, ref: string)
    ensures WellFormedRef(RefOf(a))
    ensures RefOf(a) == RefOf(b) <==> a == b
    ensures WellFormedRef(ref) ==> exists draw: Draw :: RefOf(draw) == ref
  {
    DrawOfRef(a);
    DrawOfRef(b);
    if WellFormedRef(ref) { RefOfDraw(ref); }
  }

  /** Fills eight random characters; the random source may fail unless it is `reliable`. */
  method GenerateBookingRef(draw: Draw, reliable: bool) returns (ok: bool, ref: string)
    ensures ok ==>
              && ref == RefOf(draw) && WellFormedRef(ref)
              && forall i :: 0 <= i < 8 ==> ref[4 + i] == "ABCDEFGHIJKLMNOPQRSTUVWXYZ0123456789"[draw[i]]
    ensures reliable ==> ok
  {
    var buf := new char[8];
    for i := 0 to buf.Length
      invariant forall j :: 0 <= j < i ==> buf[j] == CHARSET[draw[j]]
    {
      var fails: bool := *;
      if fails && !reliable { return false, ""; }
      buf[i] := CHARSET[draw[i]];
    }
    DrawOfRef(draw);
    return true, PREFIX + buf[..];
  }
}
