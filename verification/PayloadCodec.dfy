/** The booking payload on its way from the purchase to the email handler. It is written as a
    typed struct, decoded into an untyped field and encoded again by the relay, once more by
    the consumer and the handler, and decoded into a typed struct at the end. In an untyped
    field every JSON number is a float64. Ids and quantities are natural numbers here, and a
    float64 without a fraction is its value. */
module PayloadCodec {
  import opened Basics

  // ---- float64 for natural numbers ----

  const TWO_53: nat := 0x20_0000_0000_0000
  const TWO_54: nat := 0x40_0000_0000_0000
  const MAX_UINT64: nat := 0xFFFF_FFFF_FFFF_FFFF
  const MAX_INT64: nat := 0x7FFF_FFFF_FFFF_FFFF

  /** The distance of neighbouring float64 values around n: a 53-bit significand leaves the
      bits below it out. */
  function Spacing(n: nat): (q: nat)
    ensures 1 <= q
  {
    if n < TWO_53 then 1 else 2 * Spacing(n / 2)
  }

  /** ParseFloat of a decimal natural number: the nearest float64, an even significand on a
      tie. */
  function ToFloat(n: nat): nat {
    var q := Spacing(n);
    var k, r := n / q, n % q;
    if 2 * r < q || (2 * r == q && k % 2 == 0) then k * q else (k + 1) * q
  }

  /** A float64 value: a 53-bit significand times a power of two. */
  predicate IsFloat(x: nat) { x < TWO_53 || (x % 2 == 0 && IsFloat(x / 2)) }

  function Distance(a: nat, b: nat): nat { if a <= b then b - a else a - b }

  lemma {:induction false} SpacingBounds(n: nat)
    ensures n < TWO_53 * Spacing(n)
    ensures TWO_53 <= n ==> TWO_53 / 2 * Spacing(n) <= n
    ensures TWO_53 <= n < TWO_54 ==> Spacing(n) == 2
    ensures TWO_54 <= n ==> 4 <= Spacing(n)
  {
    if TWO_53 <= n {
      SpacingBounds(n / 2);
      if TWO_54 <= n { assert Spacing(n / 2) == 2 * Spacing(n / 2 / 2); }
    }
  }

  /** Spacings are powers of two, larger for larger numbers. */
  lemma {:induction false} SpacingGrows(x: nat, n: nat) returns (c: nat)
    requires x <= n
    ensures 1 <= c && Spacing(n) == c * Spacing(x)
  {
    if x < TWO_53 {
      c := Spacing(n);
    } else {
      c := SpacingGrows(x / 2, n / 2);
      TwiceProduct(c, Spacing(x / 2));
    }
  }

  lemma TwiceProduct(c: nat, s: nat)
    ensures 2 * (c * s) == c * (2 * s)
  {
  }

  lemma {:induction false} FloatIsMultiple(x: nat) returns (t: nat)
    requires IsFloat(x)
    ensures x == t * Spacing(x)
  {
    if x < TWO_53 {
      t := x;
    } else {
      t := FloatIsMultiple(x / 2);
      TwiceProduct(t, Spacing(x / 2));
    }
  }

  lemma {:induction false} MultipleIsFloat(k: nat, n: nat)
    requires k <= TWO_53
    ensures IsFloat(k * Spacing(n))
  {
    if n < TWO_53 {
      assert k == TWO_53 ==> IsFloat(TWO_53 / 2);
    } else {
      MultipleIsFloat(k, n / 2);
      TwiceProduct(k, Spacing(n / 2));
      assert IsFloat(2 * (k * Spacing(n / 2)));
    }
  }

  lemma ProductOrder(j: int, k: int, q: nat)
    ensures j <= k ==> j * q <= k * q
  {
  }

  /** The neighbours of n among the multiples of its spacing. */
  lemma Bracket(n: nat) returns (k: nat, r: nat)
    ensures k == n / Spacing(n) && r == n % Spacing(n) && n == k * Spacing(n) + r
    ensures k < TWO_53 && (TWO_53 <= n ==> TWO_53 <= 2 * k)
  {
    hide Spacing;
    k, r := n / Spacing(n), n % Spacing(n);
    DivisionRule(n, Spacing(n));
    SpacingBounds(n);
    QuotientBounds(n, k, r, Spacing(n), TWO_53);
    QuotientBounds(n, k, r, Spacing(n), TWO_53 / 2);
  }

  lemma DivisionRule(n: nat, q: nat)
    requires 1 <= q
    ensures n == n / q * q + n % q && n % q < q
  {
  }

  lemma QuotientBounds(n: nat, k: nat, r: nat, q: nat, bound: nat)
    requires n == k * q + r && r < q
    ensures n < bound * q ==> k < bound
    ensures bound * q <= n ==> bound <= k
  {
    ProductOrder(bound, k, q);
    ProductOrder(k + 1, bound, q);
  }

  /** A float64 is a multiple of the spacing at n, or lies below the power of two under n. */
  lemma FloatAround(n: nat, x: nat) returns (j: nat)
    requires IsFloat(x)
    ensures x == j * Spacing(n) || x <= n / Spacing(n) * Spacing(n)
  {
    j := FloatIsMultiple(x);
    if n <= x {
      var c := SpacingGrows(n, x);
      Reassociate(j, c, Spacing(n));
      j := j * c;
    } else {
      var c := SpacingGrows(x, n);
      if c != 1 {
        SpacingBounds(x);
        ProductOrder(2, c, Spacing(x));
        var k, _ := Bracket(n);
        ProductOrder(TWO_53 / 2, k, Spacing(n));
      }
    }
  }

  lemma Reassociate(j: nat, c: nat, q: nat)
    ensures j * (c * q) == j * c * q
  {
  }

  /** ParseFloat rounds to the nearest float64, on a tie to the even significand. */
  lemma RoundsToNearest(n: nat, x: nat)
    requires IsFloat(x)
    ensures IsFloat(ToFloat(n))
    ensures Distance(n, ToFloat(n)) <= Distance(n, x)
    ensures Distance(n, ToFloat(n)) == Distance(n, x) && x != ToFloat(n)
      ==> ToFloat(n) / Spacing(n) % 2 == 0
  {
    hide Spacing, IsFloat;
    var q := Spacing(n);
    var k, r := Bracket(n);
    MultipleIsFloat(k, n);
    MultipleIsFloat(k + 1, n);
    var j := FloatAround(n, x);
    NearestMultiple(n, k, r, q, x, j);
  }

  lemma NearestMultiple(n: nat, k: nat, r: nat, q: nat, x: nat, j: nat)
    requires n == k * q + r && r < q && (x == j * q || x <= k * q)
    ensures var f := if 2 * r < q || (2 * r == q && k % 2 == 0) then k * q else (k + 1) * q;
      && Distance(n, f) <= Distance(n, x)
      && (Distance(n, f) == Distance(n, x) && x != f ==> f / q % 2 == 0)
  {
    var below, above := k * q, (k + 1) * q;
    assert above == below + q;
    assert x <= below || above <= x by {
      ProductOrder(j, k, q);
      ProductOrder(k + 1, j, q);
    }
    Quotient(k, q);
    Quotient(k + 1, q);
  }

  lemma Quotient(k: nat, q: nat)
    requires 1 <= q
    ensures k * q / q == k
  {
    QuotientBounds(k * q, k * q / q, k * q % q, q, k);
    ProductOrder(k, k + 1, q);
    QuotientBounds(k * q, k * q / q, k * q % q, q, k + 1);
  }

  /** How many decimal digits n has. */
  function Length(n: nat): (len: nat)
    ensures 1 <= len
  {
    if n < 10 then 1 else 1 + Length(n / 10)
  }

  /** How many of them are left of the trailing zeros. */
  function Significant(n: nat): (len: nat)
    ensures len <= Length(n)
  {
    if n >= 10 && n % 10 == 0 then Significant(n / 10) else Length(n)
  }

  /** FormatFloat with the shortest precision: no decimal that reads back as f has fewer
      significant digits than m, and none with as many is closer. A decimal with a fraction
      needs more digits than f itself, so only natural numbers compete. */
  ghost predicate Prints(f: nat, m: nat) {
    && ToFloat(m) == f
    && forall other: nat | ToFloat(other) == f ::
        Significant(m) < Significant(other)
        || (Significant(m) == Significant(other) && Distance(m, f) <= Distance(other, f))
  }

  /** The numbers below 2^54 that a float64 holds. */
  predicate Exact(n: nat) { n <= TWO_53 || n % 2 == 0 }

  lemma FloatNear(m: nat)
    ensures m < TWO_53 ==> ToFloat(m) == m
    ensures TWO_53 <= m ==> TWO_53 <= ToFloat(m)
    ensures m < TWO_54 ==> Distance(m, ToFloat(m)) <= 1 && Exact(ToFloat(m))
    ensures m < TWO_54 && Exact(m) ==> ToFloat(m) == m
    ensures TWO_54 <= m ==> TWO_54 <= ToFloat(m)
  {
    SpacingBounds(m);
    if TWO_54 <= m {
      var k, _ := Bracket(m);
      ProductOrder(TWO_53 / 2, k, Spacing(m));
      ProductOrder(k, k + 1, Spacing(m));
    }
  }

  lemma {:induction false} LengthAtMostOneMore(n: nat)
    requires 1 <= n
    ensures Length(n - 1) <= Length(n) <= Length(n - 1) + 1
  {
    if 10 < n {
      if n % 10 == 0 {
        LengthAtMostOneMore(n / 10);
        assert (n - 1) / 10 == n / 10 - 1;
      } else {
        assert (n - 1) / 10 == n / 10;
      }
    }
  }

  /** The neighbours of an even number are no shorter to write. */
  lemma NeighboursNoShorter(n: nat)
    requires 10 < n && n % 2 == 0
    ensures Significant(n) <= Significant(n - 1) && Significant(n) <= Significant(n + 1)
  {
    assert (n - 1) % 10 != 0 && (n + 1) % 10 != 0;
    LengthAtMostOneMore(n + 1);
    if n % 10 == 0 {
      LengthAtMostOneMore(n / 10);
      assert (n - 1) / 10 == n / 10 - 1;
    } else {
      assert (n - 1) / 10 == n / 10;
    }
  }

  /** What reads back as n is n or next to it, and only n when n is below 2^53. */
  lemma ReadsBack(n: nat, m: nat)
    requires n < TWO_54 && Exact(n) && ToFloat(m) == n
    ensures m == n || (TWO_53 <= n && n % 2 == 0 && Distance(m, n) == 1)
  {
    FloatNear(m);
  }

  /** What reads back as an exact number is no shorter to write. */
  lemma ExactIsShortest(n: nat, other: nat)
    requires n < TWO_54 && Exact(n) && ToFloat(other) == n
    ensures Significant(n) <= Significant(other)
  {
    hide ToFloat, Significant;
    ReadsBack(n, other);
    if other != n { NeighboursNoShorter(n); }
  }

  /** An exact number below 2^54 is printed as it is. */
  lemma PrintsItself(n: nat, m: nat)
    requires n < TWO_54 && Exact(n)
    ensures ToFloat(n) == n
    ensures Prints(n, m) <==> m == n
  {
    FloatNear(n);
    hide ToFloat, Significant, Exact;
    forall other: nat | ToFloat(other) == n
      ensures Significant(n) <= Significant(other)
    {
      ExactIsShortest(n, other);
    }
    if Prints(n, m) {
      assert Distance(m, n) <= Distance(n, n);
    }
  }

  // ---- Some decimal is always printed ----

  lemma {:induction false} Shortest(f: nat, m: nat) returns (b: nat)
    requires ToFloat(m) == f
    ensures ToFloat(b) == f && forall other: nat | ToFloat(other) == f :: Significant(b) <= Significant(other)
    decreases Significant(m)
  {
    hide ToFloat, Significant;
    if other: nat :| ToFloat(other) == f && Significant(other) < Significant(m) {
      b := Shortest(f, other);
    } else {
      b := m;
    }
  }

  lemma {:induction false} Closest(f: nat, m: nat) returns (b: nat)
    requires ToFloat(m) == f && forall other: nat | ToFloat(other) == f :: Significant(m) <= Significant(other)
    ensures Prints(f, b)
    decreases Distance(m, f)
  {
    hide ToFloat, Significant, Distance;
    if other: nat :|
      ToFloat(other) == f && Significant(other) == Significant(m) && Distance(other, f) < Distance(m, f)
    {
      b := Closest(f, other);
    } else {
      b := m;
    }
  }

  /** One hop of a number through an untyped field. */
  ghost predicate Hop(n: nat, m: nat) { Prints(ToFloat(n), m) }

  /** Every number, of any size, comes out as some number. */
  lemma HopExists(n: nat) returns (m: nat)
    ensures Hop(n, m)
  {
    hide ToFloat;
    m := Shortest(ToFloat(n), n);
    m := Closest(ToFloat(n), m);
  }

  lemma TopFloat()
    ensures ToFloat(TWO_54) == TWO_54
  {
    assert Spacing(TWO_53) == 2 * Spacing(TWO_53 / 2);
    assert Spacing(TWO_54) == 2 * Spacing(TWO_53);
  }

  /** An odd number above 2^53 becomes an even float64 next to it, which reads back. */
  lemma InexactMoves(n: nat)
    requires n < TWO_54 && !Exact(n)
    ensures var f := ToFloat(n); 10 < f && f % 2 == 0 && Distance(n, f) == 1 && ToFloat(f) == f
  {
    FloatNear(n);
    TopFloat();
    FloatNear(ToFloat(n));
  }

  /** Another number below 2^54 is never printed again. */
  lemma InexactIsLost(n: nat)
    requires n < TWO_54 && !Exact(n)
    ensures !Hop(n, n)
  {
    hide ToFloat, Significant, Exact;
    InexactMoves(n);
    var f := ToFloat(n);
    NeighboursNoShorter(f);
    assert Significant(f) <= Significant(n) && Distance(f, f) < Distance(n, f);
  }

  // ---- The documents ----

  /** A payload that a purchase builds: it has refused quantities that are not positive. */
  type TicketPayload = p: Payload | 0 <= p.quantity witness Payload("", 0, 0, EventInfo("", "", ""), 0)

  datatype Scalar = Text(text: string) | Number(n: nat)

  /** A JSON object. MySQL and Go reorder its keys, so order means nothing. */
  type Document = map<string, Scalar>

  /** What an untyped field holds after Unmarshal. */
  datatype Dynamic = DynamicText(text: string) | DynamicFloat(f: nat)

  /** Marshal of the typed payload writes integers exactly. */
  function Encode(p: TicketPayload): Document {
    map[
      "booking_ref" := Text(p.ref), "user_id" := Number(p.user), "event_id" := Number(p.event),
      "event_name" := Text(p.info.name), "event_date" := Text(p.info.date), "venue" := Text(p.info.venue),
      "quantity" := Number(p.quantity)
    ]
  }

  /** Unmarshal into the untyped field. */
  function Load(doc: Document): map<string, Dynamic> {
    map key | key in doc :: if doc[key].Text? then DynamicText(doc[key].text) else DynamicFloat(ToFloat(doc[key].n))
  }

  /** Marshal of the untyped field may write `doc`. */
  ghost predicate Dumps(fields: map<string, Dynamic>, doc: Document) {
    && doc.Keys == fields.Keys
    && forall key | key in fields ::
        if fields[key].DynamicText? then doc[key] == Text(fields[key].text)
        else doc[key].Number? && Prints(fields[key].f, doc[key].n)
  }

  /** A string field of the handler's struct: absent keys leave it empty, other kinds fail. */
  function TextField(doc: Document, key: string): Option<string> {
    if key !in doc then Some("") else if doc[key].Text? then Some(doc[key].text) else None
  }

  /** An integer field of the handler's struct: too large a number fails. */
  function NumberField(doc: Document, key: string, max: nat): Option<nat> {
    if key !in doc then Some(0) else if doc[key].Number? && doc[key].n <= max then Some(doc[key].n) else None
  }

  /** Unmarshal into the handler's struct. */
  function Decode(doc: Document): Option<Payload> {
    var ref, user, event := TextField(doc, "booking_ref"), NumberField(doc, "user_id", MAX_UINT64),
                            NumberField(doc, "event_id", MAX_UINT64);
    var name, date, venue := TextField(doc, "event_name"), TextField(doc, "event_date"), TextField(doc, "venue");
    var quantity := NumberField(doc, "quantity", MAX_INT64);
    if ref.Some? && user.Some? && event.Some? && name.Some? && date.Some? && venue.Some? && quantity.Some?
    then Some(Payload(ref.value, user.value, event.value, EventInfo(name.value, date.value, venue.value),
        quantity.value))
    else None
  }

  /** Decoding into an untyped field and encoding again. */
  ghost predicate Relayed(doc: Document, doc': Document) { Dumps(Load(doc), doc') }

  /** The purchase stores `p`; the relay passes the stored document on, the consumer and the
      handler pass the message on, and the handler's struct is then `q`, or an error. */
  ghost predicate Journey(p: TicketPayload, q: Option<Payload>) {
    exists message: Document, handled: Document ::
      Relayed(Encode(p), message) && Relayed(message, handled) && q == Decode(handled)
  }

  ghost predicate FieldRelayed(v: Scalar, v': Scalar) {
    if v.Text? then v' == v else v'.Number? && Hop(v.n, v'.n)
  }

  /** A document is passed on field by field. */
  lemma RelayedFields(doc: Document, doc': Document)
    ensures Relayed(doc, doc')
      <==> doc'.Keys == doc.Keys && forall key | key in doc :: FieldRelayed(doc[key], doc'[key])
  {
    var fields := Load(doc);
    assert fields.Keys == doc.Keys;
    if Relayed(doc, doc') {
      forall key | key in doc ensures FieldRelayed(doc[key], doc'[key]) {
        assert key in fields;
      }
    }
  }

  /** Every document can be passed on. */
  lemma RelayExists(doc: Document) returns (doc': Document)
    ensures Relayed(doc, doc')
  {
    hide Relayed, Hop;
    forall key | key in doc ensures exists v' :: FieldRelayed(doc[key], v') {
      var v := doc[key];
      if v.Text? {
        assert FieldRelayed(v, v);
      } else {
        var m := HopExists(v.n);
        assert FieldRelayed(v, Number(m));
      }
    }
    doc' := map key | key in doc :: var v' :| FieldRelayed(doc[key], v'); v';
    RelayedFields(doc, doc');
  }

  /** Every payload has a journey. */
  lemma JourneyExists(p: TicketPayload) returns (q: Option<Payload>)
    ensures Journey(p, q)
  {
    hide Relayed, Decode, Encode;
    var message := RelayExists(Encode(p));
    var handled := RelayExists(message);
    q := Decode(handled);
  }

  /** Passing a document on twice is passing it on once. */
  lemma RelayedTwice(a: Document, b: Document, c: Document)
    requires Relayed(a, b) && Relayed(b, c)
    ensures Relayed(a, c)
  {
    hide Relayed, Hop;
    RelayedFields(a, b);
    RelayedFields(b, c);
    forall key | key in a ensures FieldRelayed(a[key], c[key]) {
      if a[key].Number? {
        HopTwice(a[key].n, b[key].n, c[key].n);
      }
    }
    RelayedFields(a, c);
  }

  lemma HopTwice(n: nat, m: nat, k: nat)
    requires Hop(n, m) && Hop(m, k)
    ensures Hop(n, k)
  {
    hide ToFloat, Significant, Distance;
    assert ToFloat(m) == ToFloat(n);
  }

  predicate BelowTwo54(p: TicketPayload) { p.user < TWO_54 && p.event < TWO_54 && p.quantity < TWO_54 }

  predicate AllExact(p: TicketPayload) { Exact(p.user) && Exact(p.event) && Exact(p.quantity) }

  /** What the handler reads, field by field: its texts are those of the purchase, and each
      number made one hop. */
  lemma JourneyFields(p: TicketPayload, q: Payload)
    requires Journey(p, Some(q))
    ensures q.ref == p.ref && q.info == p.info
    ensures Hop(p.user, q.user) && Hop(p.event, q.event) && 0 <= q.quantity && Hop(p.quantity, q.quantity)
  {
    hide Relayed, Hop;
    var message: Document, handled: Document :|
      Relayed(Encode(p), message) && Relayed(message, handled) && Some(q) == Decode(handled);
    RelayedTwice(Encode(p), message, handled);
    HandledFields(p, handled);
  }

  /** The document that the handler decodes, field by field. */
  lemma HandledFields(p: TicketPayload, handled: Document)
    requires Relayed(Encode(p), handled)
    ensures handled.Keys == Encode(p).Keys
    ensures handled["booking_ref"] == Text(p.ref) && handled["event_name"] == Text(p.info.name)
    ensures handled["event_date"] == Text(p.info.date) && handled["venue"] == Text(p.info.venue)
    ensures handled["user_id"].Number? && Hop(p.user, handled["user_id"].n)
    ensures handled["event_id"].Number? && Hop(p.event, handled["event_id"].n)
    ensures handled["quantity"].Number? && Hop(p.quantity, handled["quantity"].n)
  {
    hide Relayed, Hop;
    var doc := Encode(p);
    RelayedFields(doc, handled);
    assert FieldRelayed(doc["booking_ref"], handled["booking_ref"]);
    assert FieldRelayed(doc["event_name"], handled["event_name"]);
    assert FieldRelayed(doc["event_date"], handled["event_date"]);
    assert FieldRelayed(doc["venue"], handled["venue"]);
    assert FieldRelayed(doc["user_id"], handled["user_id"]);
    assert FieldRelayed(doc["event_id"], handled["event_id"]);
    assert FieldRelayed(doc["quantity"], handled["quantity"]);
  }

  /** Main result: for all strings and all numbers below 2^54, the handler can read the payload
      that the purchase built if and only if each number is at most 2^53 or even, and then it
      reads nothing else. */
  lemma PayloadArrivesExactly(p: TicketPayload)
    requires BelowTwo54(p)
    ensures Journey(p, Some(p)) <==> AllExact(p)
    ensures forall q :: Journey(p, q) ==> (q == Some(p) <==> AllExact(p))
    ensures exists q :: Journey(p, q)
  {
    hide Journey, Hop, Exact;
    var some := JourneyExists(p);
    forall q | Journey(p, q) ensures q == Some(p) <==> AllExact(p) {
      JourneyOutcome(p, q);
    }
  }

  lemma JourneyOutcome(p: TicketPayload, q: Option<Payload>)
    requires BelowTwo54(p) && Journey(p, q)
    ensures q == Some(p) <==> AllExact(p)
  {
    hide Relayed, Hop, Exact;
    var message: Document, handled: Document :|
      Relayed(Encode(p), message) && Relayed(message, handled) && q == Decode(handled);
    RelayedTwice(Encode(p), message, handled);
    HandledFields(p, handled);
    NumberSurvives(p.user, handled["user_id"].n);
    NumberSurvives(p.event, handled["event_id"].n);
    NumberSurvives(p.quantity, handled["quantity"].n);
  }

  lemma NumberSurvives(n: nat, m: nat)
    requires n < TWO_54 && Hop(n, m)
    ensures m == n <==> Exact(n)
  {
    if Exact(n) {
      PrintsItself(n, m);
    } else {
      InexactIsLost(n);
    }
  }

  /** The journey of exact numbers is possible and has one outcome. */
  lemma PayloadArrives(p: TicketPayload, q: Option<Payload>)
    requires p.user <= TWO_53 && p.event <= TWO_53 && p.quantity <= TWO_53
    ensures Journey(p, q) <==> q == Some(p)
  {
    hide Journey;
    PayloadArrivesExactly(p);
  }

  // ---- When the handler can read anything ----

  /** The nearest float64 of each number is below the end of the handler's integer type. */
  predicate Fits(p: TicketPayload) {
    && ToFloat(p.user) < 0x1_0000_0000_0000_0000 && ToFloat(p.event) < 0x1_0000_0000_0000_0000
    && ToFloat(p.quantity) < 0x8000_0000_0000_0000
  }

  lemma LimitsAreFloats()
    ensures IsFloat(MAX_UINT64 + 1) && IsFloat(MAX_INT64 + 1)
    ensures IsFloat(MAX_UINT64 + 1 - 2048) && IsFloat(MAX_INT64 + 1 - 1024)
  {
    assert Spacing(0xFFFF_FFFF_FFFF_F800) == 2048;
    assert Spacing(0x7FFF_FFFF_FFFF_FC00) == 1024;
    hide IsFloat, Spacing;
    MultipleIsFloat(TWO_53, 0xFFFF_FFFF_FFFF_F800);
    MultipleIsFloat(TWO_53 - 1, 0xFFFF_FFFF_FFFF_F800);
    MultipleIsFloat(TWO_53, 0x7FFF_FFFF_FFFF_FC00);
    MultipleIsFloat(TWO_53 - 1, 0x7FFF_FFFF_FFFF_FC00);
  }

  /** Rounding does not jump over a float64. */
  lemma RoundingKeepsSide(top: nat, m: nat)
    requires IsFloat(top)
    ensures ToFloat(m) < top ==> m < top
    ensures m < top ==> ToFloat(m) <= top
  {
    hide ToFloat, IsFloat;
    RoundsToNearest(m, top);
  }

  lemma OneZero(m: nat)
    requires Significant(m) < Length(m)
    ensures m % 10 == 0 && Length(m) == 1 + Length(m / 10) && Significant(m) == Significant(m / 10)
  {
  }

  /** A number that drops three digits ends in three zeros. */
  lemma ThreeZeros(m: nat)
    requires Significant(m) + 3 <= Length(m)
    ensures m % 1000 == 0
  {
    hide Length, Significant;
    OneZero(m);
    OneZero(m / 10);
    OneZero(m / 10 / 10);
  }

  lemma ZeroDrops(m: nat)
    requires 10 <= m && m % 10 == 0
    ensures Significant(m) == Significant(m / 10) && Length(m) == 1 + Length(m / 10)
  {
  }

  lemma NothingDrops(m: nat)
    requires m % 10 != 0
    ensures Significant(m) == Length(m)
  {
  }

  lemma DropsThree(m: nat)
    requires m % 1000 == 0 && m / 1000 % 10 != 0
    ensures Significant(m) == Length(m / 1000) && Length(m) == 3 + Length(m / 1000)
  {
    hide Length, Significant;
    ZeroDrops(m);
    ZeroDrops(m / 10);
    ZeroDrops(m / 10 / 10);
    NothingDrops(m / 1000);
    assert m / 10 / 10 / 10 == m / 1000;
  }

  lemma FourDigits(m: nat)
    requires 10000 <= m
    ensures Length(m) == 4 + Length(m / 10000)
  {
    assert Length(m) == 1 + Length(m / 10) && Length(m / 10) == 1 + Length(m / 10 / 10);
    assert m / 10 / 10 == m / 100 && m / 100 / 10 / 10 == m / 10000;
    assert Length(m / 100) == 1 + Length(m / 100 / 10);
  }

  lemma TopRounds()
    ensures ToFloat(18446744073709552000) == MAX_UINT64 + 1
    ensures ToFloat(9223372036854776000) == MAX_INT64 + 1
  {
    assert Spacing(18446744073709552000) == 4096;
    assert Spacing(9223372036854776000) == 2048;
  }

  /** 2^64 is printed as a larger number. */
  lemma TopUnsigned(m: nat)
    requires Prints(MAX_UINT64 + 1, m)
    ensures MAX_UINT64 < m
  {
    TopRounds();
    LimitsAreFloats();
    hide ToFloat, IsFloat, Significant, Length;
    var printed: nat := 18446744073709552000;
    if m <= MAX_UINT64 {
      RoundsToNearest(m, MAX_UINT64 + 1 - 2048);
      FourDigits(m);
      FourDigits(printed);
      DropsThree(printed);
      ThreeZeros(m);
      DropsThree(m);
    }
  }

  /** 2^63 is printed as a larger number. */
  lemma TopSigned(m: nat)
    requires Prints(MAX_INT64 + 1, m)
    ensures MAX_INT64 < m
  {
    TopRounds();
    LimitsAreFloats();
    hide ToFloat, IsFloat, Significant, Length;
    var printed: nat := 9223372036854776000;
    if m <= MAX_INT64 {
      RoundsToNearest(m, MAX_INT64 + 1 - 1024);
      FourDigits(m);
      FourDigits(printed);
      DropsThree(printed);
      ThreeZeros(m);
    }
  }

  /** After a hop a number fits an integer type exactly if its float64 does. */
  lemma HopFits(n: nat, m: nat, max: nat)
    requires Hop(n, m) && (max == MAX_UINT64 || max == MAX_INT64)
    ensures m <= max <==> ToFloat(n) <= max
  {
    hide ToFloat, IsFloat, Significant;
    LimitsAreFloats();
    RoundingKeepsSide(max + 1, m);
    if ToFloat(n) == max + 1 {
      if max == MAX_UINT64 { TopUnsigned(m); } else { TopSigned(m); }
    }
  }

  /** Main result, for all strings and numbers of any size: whatever the encoders print, the
      handler can decode the payload if and only if the nearest float64 of each number is below
      the end of its integer type. */
  lemma ReadableExactly(p: TicketPayload, q: Option<Payload>)
    requires Journey(p, q)
    ensures q.Some? <==> Fits(p)
  {
    hide Relayed, Hop, ToFloat;
    var message: Document, handled: Document :|
      Relayed(Encode(p), message) && Relayed(message, handled) && q == Decode(handled);
    RelayedTwice(Encode(p), message, handled);
    HandledFields(p, handled);
    HopFits(p.user, handled["user_id"].n, MAX_UINT64);
    HopFits(p.event, handled["event_id"].n, MAX_UINT64);
    HopFits(p.quantity, handled["quantity"].n, MAX_INT64);
  }
}
