/** The simple machine that concurrent purchases refine: per event, an append-only log of
    sales. One sale is one atomic append, allowed only with a token newer than every
    accepted one and with a quantity that is still in stock. */
module BookingLog {

  type EventId = nat

  datatype Sale = Sale(token: nat, quantity: int)

  datatype Append = Append(event: EventId, sale: Sale)

  type Log = map<EventId, seq<Sale>>

  function Sold(sales: seq<Sale>): int {
    if sales == [] then 0 else Sold(sales[..|sales| - 1]) + sales[|sales| - 1].quantity
  }

  function LastToken(sales: seq<Sale>): nat {
    if sales == [] then 0 else sales[|sales| - 1].token
  }

  ghost predicate Legal(stock: map<EventId, nat>, log: Log, a: Append) {
    && a.event in log && a.event in stock
    && LastToken(log[a.event]) < a.sale.token
    && 1 <= a.sale.quantity
    && Sold(log[a.event]) + a.sale.quantity <= stock[a.event]
  }

  function Apply(log: Log, a: Append): Log
    requires a.event in log
  {
    log[a.event := log[a.event] + [a.sale]]
  }

  /** `appends` is a run of the simple machine from `before` to `after`. */
  ghost predicate Runs(stock: map<EventId, nat>, before: Log, appends: seq<Append>, after: Log) {
    if appends == [] then before == after
    else Legal(stock, before, appends[0]) && Runs(stock, Apply(before, appends[0]), appends[1..], after)
  }

  lemma {:induction false} RunsConcat(stock: map<EventId, nat>, a: Log, xs: seq<Append>, b: Log, ys: seq<Append>,
          c: Log)
    requires Runs(stock, a, xs, b) && Runs(stock, b, ys, c)
    ensures Runs(stock, a, xs + ys, c)
  {
    if xs == [] {
      assert xs + ys == ys;
    } else {
      RunsConcat(stock, Apply(a, xs[0]), xs[1..], b, ys, c);
      assert (xs + ys)[1..] == xs[1..] + ys;
    }
  }

  ghost predicate Increasing(sales: seq<Sale>) {
    forall i, j :: 0 <= i < j < |sales| ==> sales[i].token < sales[j].token
  }

  ghost predicate Sound(stock: map<EventId, nat>, log: Log) {
    forall e :: e in log ==> e in stock && Increasing(log[e]) && Sold(log[e]) <= stock[e]
  }

  /** Every run of the simple machine keeps tokens strictly increasing and never sells
      more than the stock. */
  lemma {:induction false} RunsSound(stock: map<EventId, nat>, before: Log, appends: seq<Append>, after: Log)
    requires Sound(stock, before) && Runs(stock, before, appends, after)
    ensures Sound(stock, after)
  {
    if appends != [] {
      var a := appends[0];
      var sales := before[a.event] + [a.sale];
      assert sales[..|sales| - 1] == before[a.event];
      LastTokenIsLargest(before[a.event]);
      RunsSound(stock, Apply(before, a), appends[1..], after);
    }
  }

  lemma LastTokenIsLargest(sales: seq<Sale>)
    requires Increasing(sales)
    ensures forall i :: 0 <= i < |sales| ==> sales[i].token <= LastToken(sales)
  {
  }
}
