/**
 Which Naryo filter a session's configuration asks for (internal/naryo/pipeline_filter_plan.go) and how
 destinations are recognised (internal/naryo/http_client.go).
 */
module NaryoPlan {
  import opened Collections
  import opened Strings

  /** The string fields of one entry of eventSubscriptions.subscriptions; an absent field is empty. */
  datatype Subscription = Subscription(kind: string, topicId: string, contractAddress: string, fromAddress: string)

  /** The two environment settings the plan depends on. */
  datatype Settings = Settings(defaultTopic: string, allowAll: bool)

  datatype Plan = Plan(useAll: bool, key: string, topic: string, contract: string, fromUnmet: bool)

  predicate UsableTopic(t: string) { TrimSpace(t) != "" && TrimSpace(t) != "0.0.0" }

  function NormalizeAddress(a: string): string {
    var s := TrimSpace(ToLower(a));
    if s == "" then "" else if HasPrefix(s, "0x") then s else "0x" + s
  }

  predicate NamesTopic(s: Subscription) {
    TrimSpace(s.kind) == "hedera_hcs_topic" && UsableTopic(s.topicId)
  }

  predicate NamesContract(s: Subscription) {
    TrimSpace(s.kind) == "erc20_transfer" && NormalizeAddress(s.contractAddress) != ""
  }

  function TopicPlan(topic: string): Plan { Plan(false, "H:" + topic, topic, "", false) }

  function ContractPlan(s: Subscription): Plan {
    var ca := NormalizeAddress(s.contractAddress);
    Plan(false, "E:" + ca, "", ca, TrimSpace(s.fromAddress) != "")
  }

  const AllPlan := Plan(true, "ALL", "", "", false)

  const NoPlan := Plan(false, "", "", "", false)

  /** The first subscription of a Hedera topic that is neither blank nor the placeholder names this one. */
  ghost predicate IsFirstTopic(subs: seq<Subscription>, i: int, topic: string) {
    && 0 <= i < |subs| && TrimSpace(subs[i].kind) == "hedera_hcs_topic" && TrimSpace(subs[i].topicId) == topic
    && topic != "" && topic != "0.0.0"
    && forall j :: 0 <= j < i && TrimSpace(subs[j].kind) == "hedera_hcs_topic" ==>
         TrimSpace(subs[j].topicId) == "" || TrimSpace(subs[j].topicId) == "0.0.0"
  }

  ghost predicate NoTopic(subs: seq<Subscription>) {
    forall j :: 0 <= j < |subs| && TrimSpace(subs[j].kind) == "hedera_hcs_topic" ==>
      TrimSpace(subs[j].topicId) == "" || TrimSpace(subs[j].topicId) == "0.0.0"
  }

  /** The first subscription of a token contract that is not blank. */
  ghost predicate IsFirstContract(subs: seq<Subscription>, i: int) {
    && 0 <= i < |subs| && TrimSpace(subs[i].kind) == "erc20_transfer" && TrimSpace(subs[i].contractAddress) != ""
    && forall j :: 0 <= j < i && TrimSpace(subs[j].kind) == "erc20_transfer" ==>
         TrimSpace(subs[j].contractAddress) == ""
  }

  ghost predicate NoContract(subs: seq<Subscription>) {
    forall j :: 0 <= j < |subs| && TrimSpace(subs[j].kind) == "erc20_transfer" ==>
      TrimSpace(subs[j].contractAddress) == ""
  }

  /** An address without a leading 0x, which may be written in either case. */
  ghost function AddressDigits(t: string): string {
    if |t| >= 2 && t[0] == '0' && (t[1] == 'x' || t[1] == 'X') then t[2..] else t
  }

  /**
   The order of preference: a subscribed topic, the default topic, a subscribed contract, everything, nothing. A
   contract is asked for by its address in lower case behind 0x.
   */
  ghost predicate ResolvesTo(cfg: Settings, subs: seq<Subscription>, plan: Plan) {
    var given := TrimSpace(cfg.defaultTopic);
    && (forall i, t :: IsFirstTopic(subs, i, t) ==> plan == Plan(false, "H:" + t, t, "", false))
    && (NoTopic(subs) ==>
          if given != "" && given != "0.0.0" then plan == Plan(false, "H:" + given, given, "", false)
          else
            && (forall i :: IsFirstContract(subs, i) ==>
                  var ca := "0x" + ToLower(AddressDigits(TrimSpace(subs[i].contractAddress)));
                  plan == Plan(false, "E:" + ca, "", ca, TrimSpace(subs[i].fromAddress) != ""))
            && (NoContract(subs) ==>
                  plan == if cfg.allowAll then Plan(true, "ALL", "", "", false) else Plan(false, "", "", "", false)))
  }

  /** Which kind of plan it is, for every list of subscriptions; and that there is only one such plan. */
  lemma PlanKindIff(cfg: Settings, subs: seq<Subscription>, plan: Plan)
    requires ResolvesTo(cfg, subs, plan)
    ensures var topics := exists i :: 0 <= i < |subs| && TrimSpace(subs[i].kind) == "hedera_hcs_topic" &&
                                       TrimSpace(subs[i].topicId) != "" && TrimSpace(subs[i].topicId) != "0.0.0";
            var given := TrimSpace(cfg.defaultTopic) != "" && TrimSpace(cfg.defaultTopic) != "0.0.0";
            var contracts := exists i :: 0 <= i < |subs| && TrimSpace(subs[i].kind) == "erc20_transfer" &&
                                          TrimSpace(subs[i].contractAddress) != "";
            && (plan.topic != "" <==> topics || given)
            && (plan.contract != "" <==> !topics && !given && contracts)
            && (plan.useAll <==> !topics && !given && !contracts && cfg.allowAll)
            && (Provisionable(plan) <==> topics || given || contracts || cfg.allowAll)
    ensures forall other :: ResolvesTo(cfg, subs, other) ==> other == plan
  {
    if i :| 0 <= i < |subs| && TrimSpace(subs[i].kind) == "hedera_hcs_topic" &&
            TrimSpace(subs[i].topicId) != "" && TrimSpace(subs[i].topicId) != "0.0.0"
    {
      var k := FirstTopic(subs, i);
      assert IsFirstTopic(subs, k, TrimSpace(subs[k].topicId));
    } else {
      assert NoTopic(subs);
      if i :| 0 <= i < |subs| && TrimSpace(subs[i].kind) == "erc20_transfer" && TrimSpace(subs[i].contractAddress) != "" {
        var k := FirstContract(subs, i);
        assert IsFirstContract(subs, k);
      } else {
        assert NoContract(subs);
      }
    }
  }

  lemma PlanIsResolved(cfg: Settings, subs: seq<Subscription>, plan: Plan)
    requires ResolvesTo(cfg, subs, plan)
    ensures Resolved(plan)
  {
    if i :| 0 <= i < |subs| && TrimSpace(subs[i].kind) == "hedera_hcs_topic" &&
            TrimSpace(subs[i].topicId) != "" && TrimSpace(subs[i].topicId) != "0.0.0"
    {
      var k := FirstTopic(subs, i);
      assert IsFirstTopic(subs, k, TrimSpace(subs[k].topicId));
    } else {
      assert NoTopic(subs);
      if i :| 0 <= i < |subs| && TrimSpace(subs[i].kind) == "erc20_transfer" && TrimSpace(subs[i].contractAddress) != "" {
        var k := FirstContract(subs, i);
        assert IsFirstContract(subs, k);
      } else {
        assert NoContract(subs);
      }
    }
  }

  lemma {:induction false} FirstTopic(subs: seq<Subscription>, i: nat) returns (k: nat)
    requires i < |subs| && NamesTopic(subs[i])
    ensures k < |subs| && IsFirstTopic(subs, k, TrimSpace(subs[k].topicId))
    decreases i
  {
    k := i;
    if j :| 0 <= j < i && NamesTopic(subs[j]) { k := FirstTopic(subs, j); }
  }

  lemma {:induction false} FirstContract(subs: seq<Subscription>, i: nat) returns (k: nat)
    requires i < |subs| && TrimSpace(subs[i].kind) == "erc20_transfer" && TrimSpace(subs[i].contractAddress) != ""
    ensures k < |subs| && IsFirstContract(subs, k)
    decreases i
  {
    k := i;
    if j :| 0 <= j < i && TrimSpace(subs[j].kind) == "erc20_transfer" && TrimSpace(subs[j].contractAddress) != "" {
      k := FirstContract(subs, j);
    }
  }

  method FindTopic(subs: seq<Subscription>) returns (i: nat)
    ensures if i < |subs| then IsFirstTopic(subs, i, TrimSpace(subs[i].topicId)) else NoTopic(subs)
  {
    i := 0;
    while i < |subs| && !NamesTopic(subs[i])
      invariant i <= |subs|
      invariant forall j :: 0 <= j < i ==> !NamesTopic(subs[j])
    {
      i := i + 1;
    }
  }

  method FindContract(subs: seq<Subscription>) returns (i: nat)
    ensures if i < |subs| then IsFirstContract(subs, i) else NoContract(subs)
  {
    i := 0;
    forall j | 0 <= j < |subs|
      ensures NamesContract(subs[j]) <==>
              TrimSpace(subs[j].kind) == "erc20_transfer" && TrimSpace(subs[j].contractAddress) != ""
    {
      BlankAddressIff(subs[j].contractAddress);
    }
    while i < |subs| && !NamesContract(subs[i])
      invariant i <= |subs|
      invariant forall j :: 0 <= j < i ==> !NamesContract(subs[j])
    {
      i := i + 1;
    }
  }

  lemma TopicResolves(cfg: Settings, subs: seq<Subscription>, i: nat, topic: string)
    requires IsFirstTopic(subs, i, topic)
    ensures ResolvesTo(cfg, subs, TopicPlan(topic))
  {
    forall k, t | IsFirstTopic(subs, k, t) ensures k == i && t == topic {}
  }

  lemma DefaultResolves(cfg: Settings, subs: seq<Subscription>)
    requires NoTopic(subs) && UsableTopic(cfg.defaultTopic)
    ensures ResolvesTo(cfg, subs, TopicPlan(TrimSpace(cfg.defaultTopic)))
  {
  }

  lemma ContractResolves(cfg: Settings, subs: seq<Subscription>, i: nat)
    requires NoTopic(subs) && !UsableTopic(cfg.defaultTopic) && IsFirstContract(subs, i)
    ensures ResolvesTo(cfg, subs, ContractPlan(subs[i]))
  {
    NormalAddress(subs[i].contractAddress);
    forall k | IsFirstContract(subs, k) ensures k == i {}
  }

  lemma NothingResolves(cfg: Settings, subs: seq<Subscription>)
    requires NoTopic(subs) && !UsableTopic(cfg.defaultTopic) && NoContract(subs)
    ensures ResolvesTo(cfg, subs, if cfg.allowAll then AllPlan else NoPlan)
  {
  }

  method ResolvePlan(cfg: Settings, subs: seq<Subscription>) returns (plan: Plan)
    ensures ResolvesTo(cfg, subs, plan)
  {
    var i := FindTopic(subs);
    if i < |subs| {
      TopicResolves(cfg, subs, i, TrimSpace(subs[i].topicId));
      return TopicPlan(TrimSpace(subs[i].topicId));
    }
    if UsableTopic(cfg.defaultTopic) {
      DefaultResolves(cfg, subs);
      return TopicPlan(TrimSpace(cfg.defaultTopic));
    }
    i := FindContract(subs);
    if i < |subs| {
      ContractResolves(cfg, subs, i);
      return ContractPlan(subs[i]);
    }
    NothingResolves(cfg, subs);
    return if cfg.allowAll then AllPlan else NoPlan;
  }

  /** Exactly one of: a topic, a contract, everything, nothing; and the key that goes with it. */
  ghost predicate Resolved(p: Plan) {
    || (p.topic != "" && p == TopicPlan(p.topic))
    || (p.topic == "" && p.contract != "" && p.key == "E:" + p.contract && !p.useAll)
    || p == AllPlan
    || p == NoPlan
  }

  /** A plan that can be provisioned. */
  predicate Provisionable(p: Plan) { p.useAll || p.topic != "" || p.contract != "" }

  /**
   Change detection by key is exact: two resolved plans have the same key if and only if they ask Naryo for the
   same thing.
   */
  lemma KeyIdentifiesPlan(p: Plan, q: Plan)
    requires Resolved(p) && Resolved(q)
    ensures p.key == q.key <==> p.useAll == q.useAll && p.topic == q.topic && p.contract == q.contract
  {
    KeyTail("H:", p.topic, q.topic);
    KeyTail("E:", p.contract, q.contract);
    assert p.topic != "" ==> p.key[0] == 'H' && p.key[1] == ':';
    assert q.topic != "" ==> q.key[0] == 'H' && q.key[1] == ':';
    assert p.contract != "" ==> p.key[0] == 'E' && p.key[1] == ':';
    assert q.contract != "" ==> q.key[0] == 'E' && q.key[1] == ':';
    assert AllPlan.key[0] == 'A';
  }

  lemma KeyTail(head: string, a: string, b: string)
    ensures head + a == head + b <==> a == b
  {
    if head + a == head + b {
      assert a == (head + a)[|head|..] && b == (head + b)[|head|..];
    }
  }

  lemma PrefixIff(t: string)
    ensures HasPrefix(ToLower(t), "0x") <==> |t| >= 2 && t[0] == '0' && (t[1] == 'x' || t[1] == 'X')
  {
    ToLowerAt(t);
  }

  /** A normalised address is trimmed and in lower case behind 0x; a blank one stays blank. */
  lemma NormalAddress(a: string)
    ensures NormalizeAddress(a) ==
            if TrimSpace(a) == "" then "" else "0x" + ToLower(AddressDigits(TrimSpace(a)))
  {
    var t := TrimSpace(a);
    LowerTrimSpace(a);
    ToLowerAt(t);
    PrefixIff(t);
    if HasPrefix(ToLower(t), "0x") {
      assert t == t[..2] + t[2..];
      ToLowerConcat(t[..2], t[2..]);
      ToLowerAt(t[..2]);
      assert ToLower(t[..2]) == "0x";
    }
  }

  lemma BlankAddressIff(a: string)
    ensures NormalizeAddress(a) == "" <==> TrimSpace(a) == ""
  {
    NormalAddress(a);
  }

  /** Two spellings name one contract if and only if they differ only in case, space around them or the leading 0x. */
  lemma AddressesAgreeIff(a: string, b: string)
    requires TrimSpace(a) != "" && TrimSpace(b) != ""
    ensures NormalizeAddress(a) == NormalizeAddress(b) <==>
            SameLetters(AddressDigits(TrimSpace(a)), AddressDigits(TrimSpace(b)))
  {
    NormalAddress(a);
    NormalAddress(b);
    SameLettersIff(AddressDigits(TrimSpace(a)), AddressDigits(TrimSpace(b)));
    KeyTail("0x", ToLower(AddressDigits(TrimSpace(a))), ToLower(AddressDigits(TrimSpace(b))));
  }

  /** Normalising twice is normalising once, so a contract keeps its key however it is written back. */
  lemma NormalizeIsIdempotent(a: string)
    ensures NormalizeAddress(NormalizeAddress(a)) == NormalizeAddress(a)
  {
    LoweredStaysLow(a);
    TrimSpaceTrims(ToLower(a));
    if NormalizeAddress(a) != "" {
      PrefixedIsNormal(TrimSpace(ToLower(a)));
    }
  }

  lemma PrefixedIsNormal(s: string)
    requires s != "" && IsLow(s) && Trimmed(s)
    ensures var n := if HasPrefix(s, "0x") then s else "0x" + s; NormalizeAddress(n) == n
  {
    var n := if HasPrefix(s, "0x") then s else "0x" + s;
    assert IsLow(n) by { assert forall c :: c in n ==> c in s || c in "0x"; }
    LowIsFixed(n);
    assert n[|n| - 1] == s[|s| - 1];
    TrimSpaceTrims(n);
  }

  ghost predicate IsLow(s: string) { forall c :: c in s ==> LowerChar(c) == c }

  lemma {:induction false} LowIsFixed(s: string)
    requires IsLow(s)
    ensures ToLower(s) == s
  {
    ToLowerAt(s);
  }

  lemma LoweredStaysLow(a: string)
    ensures IsLow(TrimSpace(ToLower(a)))
  {
    ToLowerAt(a);
    TrimKeepsChars(ToLower(a));
  }

  lemma {:induction false} TrimLeftKeepsChars(s: string)
    ensures forall c :: c in TrimLeft(s) ==> c in s
  {
    if s != "" && IsSpace(s[0]) { TrimLeftKeepsChars(s[1..]); }
  }

  lemma TrimKeepsChars(s: string)
    ensures forall c :: c in TrimSpace(s) ==> c in s
  {
    TrimLeftKeepsChars(s);
    TrimRightTrims(TrimLeft(s));
  }

  // ---------------------------------------------------------------------------------------------
  // Names and destinations

  function FilterName(session: string, plan: Plan): string {
    "pf-" + session + (if plan.topic != "" then "-hcs" else if plan.contract != "" then "-evm" else "-x")
  }

  /** Where Naryo posts a session's events; session ids need no escaping. */
  function DestinationPath(dest: string, session: string): string { DropSlash(dest) + "/" + session }

  /** One slash between them, whether or not the destination was given with one. */
  lemma DestinationPathIs(dest: string, session: string)
    requires dest != "" ==> dest[|dest| - 1] != '/'
    ensures DestinationPath(dest, session) == dest + "/" + session
    ensures DestinationPath(dest + "/", session) == dest + "/" + session
  {
    assert (dest + "/")[..|dest|] == dest;
  }

  predicate DestinationMatches(d: string, want: string) {
    var w, s := DropSlash(TrimSpace(want)), DropSlash(TrimSpace(d));
    TrimSpace(want) != "" && TrimSpace(d) != "" &&
    (s == w || HasSuffix(s, w) || (Contains(s, w) && |w| >= 12))
  }

  predicate DestinationsInclude(dests: seq<string>, want: string) {
    exists i :: 0 <= i < |dests| && DestinationMatches(dests[i], want)
  }

  lemma {:induction false} OccursWithin(head: string, t: string, tail: string)
    ensures Contains(head + t + tail, t)
  {
    var s := head + t + tail;
    if head == "" {
      assert s[..|t|] == t;
    } else {
      OccursWithin(head[1..], t, tail);
      assert s[1..] == head[1..] + t + tail;
    }
  }

  lemma ContainsIff(s: string, t: string)
    ensures Contains(s, t) <==> exists head, tail :: s == head + t + tail
  {
    if Contains(s, t) {
      var k := ContainsAt(s, t);
      assert s == s[..k] + t + s[k + |t|..];
    }
    if head, tail :| s == head + t + tail {
      OccursWithin(head, t, tail);
    }
  }

  /**
   A stored destination is recognised, spaces and a last slash aside, as the wanted path behind anything, such as a
   host; and from twelve characters on even with anything after it.
   */
  lemma DestinationMatchesIff(d: string, want: string, stored: string, path: string)
    requires stored == DropSlash(TrimSpace(d)) && path == DropSlash(TrimSpace(want))
    ensures DestinationMatches(d, want) <==>
            && TrimSpace(d) != "" && TrimSpace(want) != ""
            && exists head, tail :: stored == head + path + tail && (tail == "" || |path| >= 12)
  {
    ContainsIff(stored, path);
    if HasSuffix(stored, path) {
      assert stored == stored[..|stored| - |path|] + path + "";
    }
    if stored == path {
      assert stored == "" + path + "";
    }
    if head, tail :| stored == head + path + tail && tail == "" {
      assert head + path + "" == head + path && stored[|head|..] == path;
    }
  }

  /** Ids that survive trimming and carry no slash. */
  ghost predicate PlainId(s: string) { s != "" && Trimmed(s) && '/' !in s }

  lemma PathIsPlain(dest: string, s: string)
    requires PlainId(s) && (dest != "" ==> dest[0] == '/')
    ensures var p := DestinationPath(dest, s); TrimSpace(p) == p && DropSlash(p) == p && p != ""
  {
    var p := DestinationPath(dest, s);
    assert p[|p| - 1] == s[|s| - 1];
    assert s[|s| - 1] in s;
    assert p[0] == '/' by { if DropSlash(dest) != "" { assert DropSlash(dest)[0] == dest[0]; } }
    TrimSpaceTrims(p);
  }

  lemma {:induction false} ContainsAt(s: string, t: string) returns (k: nat)
    requires Contains(s, t)
    ensures k + |t| <= |s| && s[k..k + |t|] == t
  {
    if t <= s {
      k := 0;
    } else {
      k := ContainsAt(s[1..], t);
      assert s[1..][k..k + |t|] == s[k + 1..k + 1 + |t|];
      k := k + 1;
    }
  }

  /** A path can only occur in another one at its start: the last slash pins it. */
  lemma PathOccursAtStart(head: string, s: string, t: string, k: nat)
    requires '/' !in s
    requires k + |head + "/" + t| <= |head + "/" + s|
    requires (head + "/" + s)[k..k + |head + "/" + t|] == head + "/" + t
    ensures k == 0 && t <= s
  {
    var p, q := head + "/" + s, head + "/" + t;
    assert forall i :: |head| < i < |p| ==> p[i] == s[i - |head| - 1];
    assert p[k..k + |q|][|head|] == p[k + |head|] == '/';
    assert q == p[..|q|];
    assert t == q[|head| + 1..] && s[..|t|] == p[..|q|][|head| + 1..];
  }

  /** Slash-free names behind one head: one path ends another only if they are equal, and is part of it as a prefix. */
  lemma PathsWithin(head: string, s: string, t: string)
    requires '/' !in s
    ensures HasSuffix(head + "/" + s, head + "/" + t) ==> s == t
    ensures Contains(head + "/" + s, head + "/" + t) <==> t <= s
  {
    var p, q := head + "/" + s, head + "/" + t;
    if HasSuffix(p, q) {
      assert p[|p| - |q|..|p| - |q| + |q|] == q;
      PathOccursAtStart(head, s, t, |p| - |q|);
    }
    if Contains(p, q) {
      var k := ContainsAt(p, q);
      PathOccursAtStart(head, s, t, k);
    }
    if t <= s {
      assert q <= p;
    }
  }

  lemma PathMatches(p: string, q: string)
    requires p != "" && q != "" && TrimSpace(p) == p && TrimSpace(q) == q && DropSlash(p) == p && DropSlash(q) == q
    ensures DestinationsInclude([p], q) <==> p == q || HasSuffix(p, q) || (Contains(p, q) && |q| >= 12)
  {
    assert [p][0] == p;
  }

  /**
   When one session's destination is taken for another's: exactly when the ids are equal, or the wanted id is a
   prefix of the other and its path is long enough for the substring rule.
   */
  lemma DestinationsConfusedIff(dest: string, s: string, t: string)
    requires PlainId(s) && PlainId(t) && (dest != "" ==> dest[0] == '/')
    ensures DestinationsInclude([DestinationPath(dest, s)], DestinationPath(dest, t)) <==>
            s == t || (t <= s && |DestinationPath(dest, t)| >= 12)
  {
    PathIsPlain(dest, s);
    PathIsPlain(dest, t);
    PathMatches(DestinationPath(dest, s), DestinationPath(dest, t));
    PathsWithin(DropSlash(dest), s, t);
    KeyTail(DropSlash(dest) + "/", s, t);
  }

  /** Ids of equal length, as the service creates them, are never confused. */
  lemma DestinationsAreApart(dest: string, s: string, t: string)
    requires PlainId(s) && PlainId(t) && |s| == |t| && (dest != "" ==> dest[0] == '/')
    ensures DestinationsInclude([DestinationPath(dest, s)], DestinationPath(dest, t)) <==> s == t
  {
    DestinationsConfusedIff(dest, s, t);
  }
}
