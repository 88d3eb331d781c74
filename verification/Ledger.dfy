/**
 The prepaid ledger of internal/ledger/ledger.go: per-agent balances and one set of string keys that
 makes both top-ups and usage charges idempotent.
 */
module Ledger {
  import opened Collections

  const MIN_INT64: int := -0x8000_0000_0000_0000
  const MAX_INT64: int := 0x7FFF_FFFF_FFFF_FFFF

  ghost predicate Int64(v: int) { MIN_INT64 <= v <= MAX_INT64 }

  // ---------------------------------------------------------------------------------------------
  // Decimal text of a bucket number

  function Digit(d: int): char
    requires 0 <= d < 10
  {
    ('0' as int + d) as char
  }

  /** Decimal digits of n without leading zeros; empty for 0. */
  function Digits(n: nat): string {
    if n == 0 then "" else Digits(n / 10) + [Digit(n % 10)]
  }

  /** Two's-complement negation: the least int64 is its own negation. */
  function Negate64(v: int): int {
    if v == MIN_INT64 then v else -v
  }

  /** What the source's itoa returns. The least int64 stays negative after negation, so it prints no digit. */
  function Decimal(v: int): string {
    if v == 0 then "0"
    else
      var magnitude := if v < 0 then Negate64(v) else v;
      var text := if magnitude > 0 then Digits(magnitude) else "";
      if v < 0 then "-" + text else text
  }

  /** Reads decimal digits back, most significant first. */
  function ReadDigits(s: string): int {
    if s == "" then 0 else 10 * ReadDigits(s[..|s| - 1]) + (s[|s| - 1] as int - '0' as int)
  }

  function ReadDecimal(s: string): int {
    if s != "" && s[0] == '-' then -ReadDigits(s[1..]) else ReadDigits(s)
  }

  lemma {:induction false} ReadDigitsOfDigits(n: nat)
    ensures ReadDigits(Digits(n)) == n
    ensures forall c :: c in Digits(n) ==> '0' <= c <= '9'
    ensures n > 0 ==> Digits(n) != ""
  {
    if n > 0 {
      ReadDigitsOfDigits(n / 10);
      assert Digits(n)[..|Digits(n)| - 1] == Digits(n / 10);
    }
  }

  /** Every int64 but the least one reads back from its text. */
  lemma DecimalReadsBack(v: int)
    requires v != MIN_INT64
    ensures ReadDecimal(Decimal(v)) == v
    ensures Decimal(v) != "-"
  {
    if v < 0 {
      ReadDigitsOfDigits(-v);
      assert Decimal(v)[1..] == Digits(-v);
    } else if v > 0 {
      ReadDigitsOfDigits(v);
      assert Decimal(v)[0] in Digits(v);
      assert Decimal(v)[0] != '-';
    } else {
      assert ReadDigits("0") == 0;
    }
  }

  /** The text identifies the number, the least int64 included: it alone prints as a bare minus sign. */
  lemma DecimalInjective(v: int, w: int)
    requires Decimal(v) == Decimal(w)
    ensures v == w
  {
    if v != MIN_INT64 { DecimalReadsBack(v); }
    if w != MIN_INT64 { DecimalReadsBack(w); }
  }

  /** ... and exactly that number does not read back. */
  lemma LeastInt64DoesNotReadBack()
    ensures Decimal(MIN_INT64) == "-"
    ensures ReadDecimal(Decimal(MIN_INT64)) != MIN_INT64 == -9_223_372_036_854_775_808
  {
  }

  function Pow10(k: nat): nat {
    if k == 0 then 1 else 10 * Pow10(k - 1)
  }

  lemma {:induction false} DigitsLength(n: nat, k: nat)
    requires n < Pow10(k)
    ensures |Digits(n)| <= k
    decreases k
  {
    if n > 0 {
      DigitsLength(n / 10, k - 1);
    }
  }

  lemma Int64HasAtMost19Digits(n: nat)
    requires n <= MAX_INT64
    ensures |Digits(n)| <= 19
  {
    assert Pow10(10) == 10_000_000_000;
    assert Pow10(15) == 1_000_000_000_000_000;
    assert Pow10(19) == 10_000_000_000_000_000_000;
    DigitsLength(n, 19);
  }

  /** The digits still to be written; nothing once the rest is used up. */
  function PendingDigits(rest: int): string {
    if rest > 0 then Digits(rest) else ""
  }

  lemma PendingStep(rest: int, done: string)
    requires rest > 0
    ensures PendingDigits(rest) + done == PendingDigits(rest / 10) + ([Digit(rest % 10)] + done)
    ensures |PendingDigits(rest)| == |PendingDigits(rest / 10)| + 1
  {
    var more, d := PendingDigits(rest / 10), [Digit(rest % 10)];
    assert Digits(rest) == Digits(rest / 10) + d;
    assert Digits(rest / 10) == more by {
      if rest / 10 <= 0 { assert rest / 10 == 0; }
    }
    assert (more + d) + done == more + (d + done);
  }

  /** What the loop below has to write, and that the buffer is long enough for it. */
  lemma DecimalByParts(v: int)
    requires Int64(v) && v != 0
    ensures var text := PendingDigits(if v < 0 then Negate64(v) else v);
            |text| <= 19 && Decimal(v) == if v < 0 then "-" + text else text
  {
    var magnitude := if v < 0 then Negate64(v) else v;
    if magnitude > 0 { Int64HasAtMost19Digits(magnitude); }
  }

  /** itoa: digits are written from the right end of a 32-byte buffer. */
  method Itoa(v: int) returns (s: string)
    requires Int64(v)
    ensures s == Decimal(v)
  {
    if v == 0 {
      return "0";
    }
    var neg := v < 0;
    var rest := if neg then Negate64(v) else v;
    ghost var text := PendingDigits(rest);
    DecimalByParts(v);
    var buf := new char[32];
    var i := 32;
    while rest > 0
      invariant 0 <= i <= 32 && |PendingDigits(rest)| <= i
      invariant text == PendingDigits(rest) + buf[i..]
    {
      ghost var done := buf[i..];
      PendingStep(rest, done);
      i := i - 1;
      buf[i] := Digit(rest % 10);
      assert buf[i..] == [Digit(rest % 10)] + done;
      rest := rest / 10;
    }
    assert PendingDigits(rest) == "";
    s := buf[i..];
    if neg {
      s := "-" + s;
    }
  }

  // ---------------------------------------------------------------------------------------------
  // Idempotence keys

  function CreditKey(agent: string, tx: string, source: string): string {
    agent + "|" + source + "|" + tx
  }

  function ChargeKey(agent: string, pipeline: string, bucket: int): string {
    agent + "|" + pipeline + "|charge|" + Decimal(bucket)
  }

  ghost predicate BarFree(s: string) { '|' !in s }

  lemma FirstBarAt(head: string, rest: string)
    requires BarFree(head)
    ensures var x := head + "|" + rest;
            x[|head|] == '|' && forall i :: 0 <= i < |head| ==> x[i] != '|'
  {
    var x := head + "|" + rest;
    assert forall i :: 0 <= i < |head| ==> x[i] == head[i];
  }

  /** A bar-free head is determined by the text up to the first bar. */
  lemma SplitAtBar(a: string, r: string, b: string, t: string)
    requires BarFree(a) && BarFree(b)
    requires a + "|" + r == b + "|" + t
    ensures a == b && r == t
  {
    FirstBarAt(a, r);
    FirstBarAt(b, t);
    var x := a + "|" + r;
    assert |a| == |b|;
    assert a == x[..|a|] && b == x[..|b|];
    assert r == x[|a| + 1..] && t == x[|b| + 1..];
  }

  /** Keys seen from their first bar on. */
  lemma CreditKeyParts(a: string, tx: string, src: string)
    ensures CreditKey(a, tx, src) == a + "|" + (src + "|" + tx)
  {
  }

  lemma ChargeTextParts(a: string, p: string, n: string)
    ensures a + "|" + p + "|charge|" + n == a + "|" + (p + "|" + ("charge|" + n))
  {
  }

  lemma ChargeKeyParts(a: string, p: string, b: int)
    ensures ChargeKey(a, p, b) == a + "|" + (p + "|" + ("charge|" + Decimal(b)))
  {
    ChargeTextParts(a, p, Decimal(b));
  }

  lemma CreditKeyInjective(a: string, tx: string, src: string, a': string, tx': string, src': string)
    requires BarFree(a) && BarFree(a') && BarFree(src) && BarFree(src')
    requires CreditKey(a, tx, src) == CreditKey(a', tx', src')
    ensures a == a' && tx == tx' && src == src'
  {
    CreditKeyParts(a, tx, src);
    CreditKeyParts(a', tx', src');
    SplitAtBar(a, src + "|" + tx, a', src' + "|" + tx');
    SplitAtBar(src, tx, src', tx');
  }

  lemma ChargeKeyInjective(a: string, p: string, b: int, a': string, p': string, b': int)
    requires BarFree(a) && BarFree(a') && BarFree(p) && BarFree(p')
    requires ChargeKey(a, p, b) == ChargeKey(a', p', b')
    ensures a == a' && p == p' && b == b'
  {
    var n, n' := "charge|" + Decimal(b), "charge|" + Decimal(b');
    ChargeKeyParts(a, p, b);
    ChargeKeyParts(a', p', b');
    SplitAtBar(a, p + "|" + n, a', p' + "|" + n');
    SplitAtBar(p, n, p', n');
    assert Decimal(b) == n[7..] && Decimal(b') == n'[7..];
    DecimalInjective(b, b');
  }

  /** A top-up can only share a key with a charge when its source is that pipeline's id. */
  lemma CreditAndChargeKeysDisjoint(a: string, tx: string, src: string, a': string, p: string, b: int)
    requires BarFree(a) && BarFree(a') && BarFree(src) && BarFree(p)
    requires src != p
    ensures CreditKey(a, tx, src) != ChargeKey(a', p, b)
  {
    if CreditKey(a, tx, src) == ChargeKey(a', p, b) {
      CreditKeyParts(a, tx, src);
      ChargeKeyParts(a', p, b);
      SplitAtBar(a, src + "|" + tx, a', p + "|" + ("charge|" + Decimal(b)));
      SplitAtBar(src, tx, p, "charge|" + Decimal(b));
    }
  }

  ghost predicate SharesKeyWithShorterName(a: string, src: string) {
    exists b: string, tx: string, tx': string, src': string ::
      |b| < |a| && BarFree(src') && CreditKey(a, tx, src) == CreditKey(b, tx', src')
  }

  lemma KeyTail(agent: string, tx: string, source: string)
    ensures CreditKey(agent, tx, source) == agent + ("|" + (source + ("|" + tx)))
  {
  }

  lemma Regroup(b: string, c: string, r: string, tail: string)
    ensures b + "|" + (c + "|" + r) + tail == b + ("|" + (c + ("|" + (r + tail))))
  {
    assert b + "|" + (c + "|" + r) + tail == b + ("|" + ((c + "|" + r) + tail));
    assert (c + "|" + r) + tail == c + ("|" + (r + tail));
  }

  lemma OneBarCollides(b: string, c: string, src: string)
    requires BarFree(c)
    ensures SharesKeyWithShorterName(b + "|" + c, src)
  {
    KeyTail(b + "|" + c, "t", src);
    KeyTail(b, src + ("|" + "t"), c);
    Regroup(b, c, "", "");
    assert CreditKey(b + "|" + c, "t", src) == CreditKey(b, src + ("|" + "t"), c);
  }

  lemma TwoBarsCollide(b: string, c: string, r: string, src: string)
    requires BarFree(c)
    ensures SharesKeyWithShorterName(b + "|" + (c + "|" + r), src)
  {
    var a := b + "|" + (c + "|" + r);
    var tail := "|" + (src + ("|" + "t"));
    KeyTail(a, "t", src);
    Regroup(b, c, r, tail);
    KeyTail(b, r + tail, c);
    assert CreditKey(a, "t", src) == CreditKey(b, r + tail, c);
  }

  lemma SplitFirstBar(s: string) returns (head: string, rest: string)
    requires '|' in s
    ensures BarFree(head) && s == head + "|" + rest
  {
    var i := IndexOfBar(s);
    head, rest := s[..i], s[i + 1..];
  }

  /** An agent name with a bar takes a top-up key that a shorter name can produce as well. */
  lemma BarMakesKeysCollide(a: string, src: string)
    requires '|' in a
    ensures SharesKeyWithShorterName(a, src)
  {
    var b, rest := SplitFirstBar(a);
    if '|' in rest {
      var c, r := SplitFirstBar(rest);
      TwoBarsCollide(b, c, r, src);
    } else {
      OneBarCollides(b, rest, src);
    }
  }

  lemma BarFreeNameKeepsItsKeys(a: string, src: string, b: string, tx: string, tx': string, src': string)
    requires BarFree(a) && BarFree(src) && BarFree(src') && |b| < |a|
    ensures CreditKey(a, tx, src) != CreditKey(b, tx', src')
  {
    var k := CreditKey(b, tx', src');
    assert k[|b|] == '|';
    assert CreditKey(a, tx, src)[|b|] == a[|b|];
  }

  /**
   Bar-freedom of agent names is exactly the condition under which top-ups stay apart: an agent name
   shares a top-up key with some shorter name if and only if it contains a bar.
   */
  lemma AgentKeysCollideIffBar(a: string, src: string)
    requires BarFree(src)
    ensures SharesKeyWithShorterName(a, src) <==> '|' in a
  {
    if '|' in a {
      BarMakesKeysCollide(a, src);
    } else {
      forall b: string, tx: string, tx': string, src': string | |b| < |a| && BarFree(src')
        ensures CreditKey(a, tx, src) != CreditKey(b, tx', src')
      {
        BarFreeNameKeepsItsKeys(a, src, b, tx, tx', src');
      }
    }
  }

  function IndexOfBar(s: string): (i: nat)
    requires '|' in s
    ensures i < |s| && s[i] == '|' && BarFree(s[..i])
  {
    if s[0] == '|' then 0
    else
      var i := 1 + IndexOfBar(s[1..]);
      assert s[..i] == [s[0]] + s[1..][..i - 1];
      i
  }

  // ---------------------------------------------------------------------------------------------
  // The books and their two operations

  /** One top-up request. An empty transaction id makes it non-idempotent. */
  datatype TopUp = TopUp(agent: string, amount: int, tx: string, source: string)

  datatype Books = Books(balances: map<string, int>, credited: set<string>)

  const EmptyBooks := Books(map[], {})

  function Balance(l: Books, agent: string): int {
    if agent in l.balances then l.balances[agent] else 0
  }

  predicate ValidTopUp(t: TopUp) { t.agent != "" && t.amount > 0 }

  /** Books after a credit request; an invalid request changes nothing. */
  function Credited(l: Books, t: TopUp): Books {
    var key := CreditKey(t.agent, t.tx, t.source);
    if !ValidTopUp(t) || (t.tx != "" && key in l.credited) then l
    else
      Books(l.balances[t.agent := Balance(l, t.agent) + t.amount],
            if t.tx != "" then l.credited + {key} else l.credited)
  }

  datatype ChargeResult =
    | Charged(books: Books, remaining: int)
    | InsufficientFunds(remaining: int)
    | InvalidCharge

  function Charge(l: Books, agent: string, pipeline: string, units: int, bucket: int): ChargeResult {
    var key := ChargeKey(agent, pipeline, bucket);
    var bal := Balance(l, agent);
    if agent == "" || pipeline == "" || units < 0 then InvalidCharge
    else if units == 0 || key in l.credited then Charged(l, bal)
    else if bal < units then InsufficientFunds(bal)
    else Charged(Books(l.balances[agent := bal - units], l.credited + {key}), bal - units)
  }

  /**
   A charge is invalid without an agent, a pipeline or a sensible number of units. Otherwise it is accepted if and only
   if it is free, was accepted before or the balance covers it; the figure in the answer is the balance that is then
   left. It moves money only on a key that is new, and then exactly the units, from the agent alone.
   */
  lemma ChargeIs(l: Books, agent: string, pipeline: string, units: int, bucket: int)
    ensures var r := Charge(l, agent, pipeline, units, bucket);
            var seen := agent + "|" + pipeline + "|charge|" + Decimal(bucket) in l.credited;
            && (r.InvalidCharge? <==> agent == "" || pipeline == "" || units < 0)
            && (!r.InvalidCharge? ==> (r.Charged? <==> units == 0 || seen || Balance(l, agent) >= units))
            && (r.InsufficientFunds? ==> r.remaining == Balance(l, agent))
            && (r.Charged? ==>
                  && r.remaining == Balance(r.books, agent)
                  && (units == 0 || seen ==> r.books == l)
                  && (units > 0 && !seen ==>
                        && r.books.credited == l.credited + {agent + "|" + pipeline + "|charge|" + Decimal(bucket)}
                        && forall a :: Balance(r.books, a) == Balance(l, a) - if a == agent then units else 0))
  {
  }

  // ---------------------------------------------------------------------------------------------
  // At-least-once delivery, exactly-once effect

  /** Names the service hands to the ledger: bar-free agents and bar-free source names. */
  ghost predicate PlainTopUp(t: TopUp) { BarFree(t.agent) && BarFree(t.source) }

  ghost predicate SameDelivery(t: TopUp, u: TopUp) {
    t.agent == u.agent && t.tx == u.tx && t.source == u.source
  }

  /** An earlier valid top-up carried the same agent, source and transaction id. */
  ghost predicate Seen(ds: seq<TopUp>, t: TopUp) {
    exists i :: 0 <= i < |ds| && ValidTopUp(ds[i]) && SameDelivery(ds[i], t)
  }

  function Deliver(l: Books, ds: seq<TopUp>): Books {
    if ds == [] then l else Credited(Deliver(l, ds[..|ds| - 1]), ds[|ds| - 1])
  }

  /** Units of the top-ups for one agent, each transaction counted at its first occurrence only. */
  ghost function FirstTotal(ds: seq<TopUp>, agent: string): int {
    if ds == [] then 0
    else
      var before, t := ds[..|ds| - 1], ds[|ds| - 1];
      FirstTotal(before, agent) +
      (if ValidTopUp(t) && t.agent == agent && (t.tx == "" || !Seen(before, t)) then t.amount else 0)
  }

  lemma SeenSnoc(ds: seq<TopUp>, d: TopUp, t: TopUp)
    ensures Seen(ds + [d], t) <==> Seen(ds, t) || (ValidTopUp(d) && SameDelivery(d, t))
  {
    var es := ds + [d];
    assert es[|ds|] == d;
    if Seen(ds, t) {
      var i :| 0 <= i < |ds| && ValidTopUp(ds[i]) && SameDelivery(ds[i], t);
      assert es[i] == ds[i];
    }
  }

  /** Delivering any list of top-ups pays every agent its first occurrences, no more and no less. */
  lemma {:induction false} DeliveryPaysFirstOccurrences(ds: seq<TopUp>)
    requires forall i :: 0 <= i < |ds| ==> PlainTopUp(ds[i])
    ensures forall agent :: Balance(Deliver(EmptyBooks, ds), agent) == FirstTotal(ds, agent)
    ensures forall t: TopUp :: PlainTopUp(t) && t.tx != "" ==>
              (CreditKey(t.agent, t.tx, t.source) in Deliver(EmptyBooks, ds).credited <==> Seen(ds, t))
  {
    if ds != [] {
      var before, d := ds[..|ds| - 1], ds[|ds| - 1];
      assert ds == before + [d];
      DeliveryPaysFirstOccurrences(before);
      forall t: TopUp | PlainTopUp(t) && t.tx != ""
        ensures CreditKey(t.agent, t.tx, t.source) in Deliver(EmptyBooks, ds).credited <==> Seen(ds, t)
      {
        SeenSnoc(before, d, t);
        if CreditKey(t.agent, t.tx, t.source) == CreditKey(d.agent, d.tx, d.source) {
          CreditKeyInjective(t.agent, t.tx, t.source, d.agent, d.tx, d.source);
        }
      }
    }
  }

  /** Valid requests that agree on agent, source and transaction id agree on the amount. */
  ghost predicate Consistent(ds: seq<TopUp>) {
    forall t, u :: t in ds && u in ds && ValidTopUp(t) && ValidTopUp(u) && SameDelivery(t, u) ==> t.amount == u.amount
  }

  ghost function AmountsOf(ds: seq<TopUp>, agent: string): map<TopUp, int> {
    map t | t in ds && ValidTopUp(t) && t.agent == agent :: t.amount
  }

  lemma {:induction false} FirstTotalIsSumOverDistinct(ds: seq<TopUp>, agent: string)
    requires Consistent(ds)
    requires forall t :: t in ds ==> t.tx != ""
    ensures FirstTotal(ds, agent) == SumMap(AmountsOf(ds, agent))
  {
    if ds != [] {
      var before, d := ds[..|ds| - 1], ds[|ds| - 1];
      assert ds == before + [d];
      FirstTotalIsSumOverDistinct(before, agent);
      if ValidTopUp(d) && d.agent == agent {
        assert AmountsOf(ds, agent) == AmountsOf(before, agent)[d := d.amount];
        SumMapUpdate(AmountsOf(before, agent), d, d.amount);
        assert Seen(before, d) <==> d in before;
      } else {
        assert AmountsOf(ds, agent) == AmountsOf(before, agent);
      }
    }
  }

  ghost predicate SameBalances(ds: seq<TopUp>, es: seq<TopUp>) {
    forall agent :: Balance(Deliver(EmptyBooks, ds), agent) == Balance(Deliver(EmptyBooks, es), agent)
  }

  /**
   At-least-once delivery has exactly-once effect: two delivery sequences with the same requests, in any
   order and with any repetitions, leave every agent the same balance.
   */
  lemma CreditsExactlyOnce(ds: seq<TopUp>, es: seq<TopUp>)
    requires forall t :: t in ds <==> t in es
    requires forall t :: t in ds ==> PlainTopUp(t) && t.tx != ""
    requires Consistent(ds)
    ensures SameBalances(ds, es)
  {
    DeliveryPaysFirstOccurrences(ds);
    DeliveryPaysFirstOccurrences(es);
    forall agent
      ensures Balance(Deliver(EmptyBooks, ds), agent) == Balance(Deliver(EmptyBooks, es), agent)
    {
      FirstTotalIsSumOverDistinct(ds, agent);
      FirstTotalIsSumOverDistinct(es, agent);
      assert AmountsOf(ds, agent) == AmountsOf(es, agent);
    }
  }

  /** Every order of the deliveries leaves the same balances. */
  ghost predicate OrderFree(ds: seq<TopUp>) {
    forall es :: multiset(es) == multiset(ds) ==> SameBalances(es, ds)
  }

  /** t is a valid request with a transaction id; u and ys arise by exchanging it with equal deliveries in xs. */
  ghost predicate Exchanged(t: TopUp, u: TopUp, xs: seq<TopUp>, ys: seq<TopUp>) {
    && ValidTopUp(t) && ValidTopUp(u) && SameDelivery(t, u) && t.tx != "" && |xs| == |ys|
    && forall i :: 0 <= i < |xs| ==> xs[i] == ys[i] || (xs[i] == u && ys[i] == t)
  }

  lemma SeenThroughExchange(t: TopUp, u: TopUp, xs: seq<TopUp>, ys: seq<TopUp>, d: TopUp)
    requires Exchanged(t, u, xs, ys)
    ensures Seen([t] + xs, d) <==> Seen([u] + ys, d)
  {
    var es, fs := [t] + xs, [u] + ys;
    forall i | 0 <= i < |es|
      ensures ValidTopUp(es[i]) && SameDelivery(es[i], d) <==> ValidTopUp(fs[i]) && SameDelivery(fs[i], d)
    {
      assert i > 0 ==> es[i] == xs[i - 1] && fs[i] == ys[i - 1];
    }
  }

  lemma HeadIsSeen(t: TopUp, u: TopUp, xs: seq<TopUp>, ys: seq<TopUp>)
    requires Exchanged(t, u, xs, ys)
    ensures Seen([t] + xs, u) && Seen([u] + ys, t)
  {
    assert ([t] + xs)[0] == t && ([u] + ys)[0] == u;
  }

  /** What the last request of a list adds to the total. */
  lemma FirstTotalSnoc(ds: seq<TopUp>, d: TopUp, agent: string)
    ensures FirstTotal(ds + [d], agent) ==
            FirstTotal(ds, agent) +
            (if ValidTopUp(d) && d.agent == agent && (d.tx == "" || !Seen(ds, d)) then d.amount else 0)
  {
    assert (ds + [d])[..|ds|] == ds;
  }

  /** Requests that count alike, because they are equal or were both seen before, keep a difference of totals. */
  lemma SameStep(es: seq<TopUp>, fs: seq<TopUp>, d: TopUp, e: TopUp, agent: string)
    requires if d == e then Seen(es, d) <==> Seen(fs, d) else d.tx != "" && e.tx != "" && Seen(es, d) && Seen(fs, e)
    ensures FirstTotal(es + [d], agent) - FirstTotal(fs + [e], agent) == FirstTotal(es, agent) - FirstTotal(fs, agent)
  {
    FirstTotalSnoc(es, d, agent);
    FirstTotalSnoc(fs, e, agent);
  }

  lemma FirstTotalOfOne(t: TopUp)
    requires ValidTopUp(t)
    ensures FirstTotal([t], t.agent) == t.amount
  {
    FirstTotalSnoc([], t, t.agent);
    assert [] + [t] == [t];
  }

  /** Exchanging the leading request with a later one of the same delivery changes the total by their difference. */
  lemma {:induction false} ExchangeMovesTotal(t: TopUp, u: TopUp, xs: seq<TopUp>, ys: seq<TopUp>)
    requires Exchanged(t, u, xs, ys)
    ensures FirstTotal([t] + xs, t.agent) - FirstTotal([u] + ys, t.agent) == t.amount - u.amount
    decreases |xs|
  {
    if |xs| == 0 {
      FirstTotalOfOne(t);
      FirstTotalOfOne(u);
      assert [t] + xs == [t] && [u] + ys == [u];
    } else {
      var xs', ys', x, y := xs[..|xs| - 1], ys[..|xs| - 1], xs[|xs| - 1], ys[|xs| - 1];
      HeadAndLast(t, xs);
      HeadAndLast(u, ys);
      ExchangeMovesTotal(t, u, xs', ys');
      SeenThroughExchange(t, u, xs', ys', x);
      HeadIsSeen(t, u, xs', ys');
      SameStep([t] + xs', [u] + ys', x, y, t.agent);
    }
  }

  lemma TwoOrders<T>(ds: seq<T>, t: T, u: T) returns (xs: seq<T>, ys: seq<T>)
    requires t in ds && u in ds && t != u
    ensures multiset([t] + xs) == multiset(ds) && multiset([u] + ys) == multiset(ds) && |xs| == |ys|
    ensures forall i :: 0 <= i < |xs| ==> xs[i] == ys[i] || (xs[i] == u && ys[i] == t)
  {
    var i :| 0 <= i < |ds| && ds[i] == t;
    xs := ds[..i] + ds[i + 1..];
    FrontIsPermutation(ds, i);
    var j :| 0 <= j < |ds| && ds[j] == u;
    var k := if j < i then j else j - 1;
    assert xs[k] == u;
    ys := xs[k := t];
    SwapIsPermutation(t, xs, k);
  }

  lemma PermutationPays(ds: seq<TopUp>, es: seq<TopUp>, agent: string)
    requires forall d :: d in ds ==> PlainTopUp(d)
    requires multiset(es) == multiset(ds)
    ensures Balance(Deliver(EmptyBooks, es), agent) == FirstTotal(es, agent)
  {
    SameMembers(es, ds);
    DeliveryPaysFirstOccurrences(es);
  }

  /** Two valid requests for one transaction with different amounts: the one delivered first decides. */
  lemma InconsistentAmountsDependOnOrder(ds: seq<TopUp>, t: TopUp, u: TopUp)
    requires forall d :: d in ds ==> PlainTopUp(d) && d.tx != ""
    requires t in ds && u in ds && ValidTopUp(t) && ValidTopUp(u) && SameDelivery(t, u) && t.amount != u.amount
    ensures !OrderFree(ds)
  {
    var xs, ys := TwoOrders(ds, t, u);
    assert t.tx != "";
    ExchangeMovesTotal(t, u, xs, ys);
    PermutationPays(ds, [t] + xs, t.agent);
    PermutationPays(ds, [u] + ys, t.agent);
    assert !SameBalances([t] + xs, ds) || !SameBalances([u] + ys, ds);
  }

  /** For any list of deliveries, all orders agree if and only if the valid requests are consistent. */
  lemma OrderFreeIffConsistent(ds: seq<TopUp>)
    requires forall d :: d in ds ==> PlainTopUp(d) && d.tx != ""
    ensures OrderFree(ds) <==> Consistent(ds)
  {
    if Consistent(ds) {
      forall es | multiset(es) == multiset(ds) ensures SameBalances(es, ds) {
        SameMembers(es, ds);
        CreditsExactlyOnce(es, ds);
      }
    } else {
      var t, u :| t in ds && u in ds && ValidTopUp(t) && ValidTopUp(u) && SameDelivery(t, u) && t.amount != u.amount;
      InconsistentAmountsDependOnOrder(ds, t, u);
    }
  }

  // ---------------------------------------------------------------------------------------------
  // The mutable ledger

  class MemoryLedger {
    var balances: map<string, int>
    var credited: set<string>

    ghost function View(): Books reads this { Books(balances, credited) }

    constructor ()
      ensures View() == EmptyBooks
    {
      balances := map[];
      credited := {};
    }

    /** Fails on an invalid request and then leaves the books alone. */
    method Credit(t: TopUp) returns (ok: bool)
      modifies this
      ensures ok == ValidTopUp(t)
      ensures View() == Credited(old(View()), t)
    {
      if t.agent == "" || t.amount <= 0 {
        return false;
      }
      if t.tx != "" {
        var key := CreditKey(t.agent, t.tx, t.source);
        if key in credited {
          return true;
        }
        credited := credited + {key};
      }
      var bal := GetBalance(t.agent);
      balances := balances[t.agent := bal + t.amount];
      return true;
    }

    method GetBalance(agent: string) returns (bal: int)
      ensures bal == Balance(View(), agent)
    {
      bal := if agent in balances then balances[agent] else 0;
    }

    method CanAfford(agent: string, minUnits: int) returns (ok: bool, bal: int)
      ensures bal == Balance(View(), agent) && ok == (bal >= minUnits)
    {
      bal := GetBalance(agent);
      ok := bal >= minUnits;
    }

    /** A refused or invalid charge leaves the books alone. */
    method ChargeUsage(agent: string, pipeline: string, units: int, bucket: int) returns (r: ChargeResult)
      requires Int64(bucket)
      modifies this
      ensures r == Charge(old(View()), agent, pipeline, units, bucket)
      ensures View() == if r.Charged? then r.books else old(View())
    {
      if agent == "" || pipeline == "" || units < 0 {
        return InvalidCharge;
      }
      var bal := GetBalance(agent);
      if units == 0 {
        return Charged(Books(balances, credited), bal);
      }
      var number := Itoa(bucket);
      var key := agent + "|" + pipeline + "|charge|" + number;
      if key in credited {
        return Charged(Books(balances, credited), bal);
      }
      if bal < units {
        return InsufficientFunds(bal);
      }
      balances := balances[agent := bal - units];
      credited := credited + {key};
      return Charged(Books(balances, credited), bal - units);
    }
  }
}
