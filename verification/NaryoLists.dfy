/** The searches the Naryo client makes through the lists it is sent, each against what it promises to find. */
module NaryoLists {
  import opened Collections
  import opened Strings
  import opened NaryoPlan
  import opened NaryoRemote

  /** What the client keeps of a row it found. */
  datatype Ref = Ref(id: string, hash: string)

  method HasId<T>(rows: seq<(string, T)>, id: string) returns (found: bool)
    ensures found <==> Listed(rows, id)
  {
    for i := 0 to |rows|
      invariant forall j :: 0 <= j < i ==> rows[j].0 != id
    {
      if rows[i].0 == id {
        return true;
      }
    }
    return false;
  }

  ghost predicate IsFirstWithId<T>(rows: seq<(string, T)>, i: int, id: string) {
    0 <= i < |rows| && rows[i].0 == id && forall j :: 0 <= j < i ==> rows[j].0 != id
  }

  lemma {:induction false} FirstWithId<T>(rows: seq<(string, T)>, id: string)
    requires Listed(rows, id)
    ensures exists i :: IsFirstWithId(rows, i, id)
  {
    var k :| 0 <= k < |rows| && rows[k].0 == id;
    if j :| 0 <= j < k && rows[j].0 == id {
      assert Listed(rows[..k], id) by { assert rows[..k][j].0 == id; }
      FirstWithId(rows[..k], id);
      var i :| IsFirstWithId(rows[..k], i, id);
      assert IsFirstWithId(rows, i, id);
    } else {
      assert IsFirstWithId(rows, k, id);
    }
  }

  /** The hash of the first row with this id; a blank hash is an error. */
  method ConfigHash(rows: seq<(string, ConfigRow)>, id: string) returns (hash: Answer<string>)
    ensures forall i :: IsFirstWithId(rows, i, id) ==>
              hash == if rows[i].1.hash == "" then Failed(Incomplete) else Ok(rows[i].1.hash)
    ensures !Listed(rows, id) ==> hash == Failed(NotListed)
  {
    for i := 0 to |rows|
      invariant forall j :: 0 <= j < i ==> rows[j].0 != id
    {
      if rows[i].0 == id {
        return if rows[i].1.hash == "" then Failed(Incomplete) else Ok(rows[i].1.hash);
      }
    }
    return Failed(NotListed);
  }

  /** Drops every trailing slash. */
  function DropSlashes(s: string): string {
    if s != "" && s[|s| - 1] == '/' then DropSlashes(s[..|s| - 1]) else s
  }

  function BaseURL(u: string): string { DropSlashes(TrimSpace(u)) }

  predicate Reusable(row: (string, ConfigRow), url: string) {
    row.1.http && BaseURL(row.1.url) == BaseURL(url) && row.0 != "" && row.1.hash != ""
  }

  ghost predicate AllSlashes(s: string) { forall c :: c in s ==> c == '/' }

  /** Dropping slashes takes away slashes at the end, all of them, and nothing else. */
  lemma {:induction false} DropSlashesParts(s: string) returns (after: string)
    ensures s == DropSlashes(s) + after && AllSlashes(after)
    ensures DropSlashes(s) != "" ==> DropSlashes(s)[|DropSlashes(s)| - 1] != '/'
  {
    after := "";
    if s != "" && s[|s| - 1] == '/' {
      after := DropSlashesParts(s[..|s| - 1]);
      assert s == s[..|s| - 1] + "/";
      after := after + "/";
    }
  }

  /** The two texts end alike but for slashes. */
  ghost predicate SamePlace(t: string, u: string) {
    exists base, more, more' :: t == base + more && u == base + more' && AllSlashes(more) && AllSlashes(more')
  }

  lemma {:induction false} SlashesDropOff(base: string, more: string)
    requires AllSlashes(more)
    ensures DropSlashes(base + more) == DropSlashes(base)
    decreases |more|
  {
    if more != "" {
      var shorter := more[..|more| - 1];
      assert more[|more| - 1] in more && forall c :: c in shorter ==> c in more;
      assert more == shorter + "/" && (base + more)[..|base + more| - 1] == base + shorter;
      SlashesDropOff(base, shorter);
    } else {
      assert base + more == base;
    }
  }

  /** A configuration is reused if and only if it is a complete HTTP one whose URL differs in space and slashes at most. */
  lemma ReusableIff(row: (string, ConfigRow), url: string)
    ensures Reusable(row, url) <==>
            row.1.http && row.0 != "" && row.1.hash != "" && SamePlace(TrimSpace(row.1.url), TrimSpace(url))
  {
    var t, u := TrimSpace(row.1.url), TrimSpace(url);
    var more := DropSlashesParts(t);
    var more' := DropSlashesParts(u);
    if DropSlashes(t) == DropSlashes(u) {
      assert t == DropSlashes(t) + more && u == DropSlashes(t) + more';
    }
    if SamePlace(t, u) {
      var base, rest, rest' :| t == base + rest && u == base + rest' && AllSlashes(rest) && AllSlashes(rest');
      SlashesDropOff(base, rest);
      SlashesDropOff(base, rest');
    }
  }

  /** The first existing HTTP configuration that posts to the same place. */
  method ConfigFor(rows: seq<(string, ConfigRow)>, url: string) returns (found: Option<Ref>)
    ensures found.None? ==> forall i :: 0 <= i < |rows| ==> !Reusable(rows[i], url)
    ensures found.Some? ==>
              exists i :: 0 <= i < |rows| && Reusable(rows[i], url) && found.value == Ref(rows[i].0, rows[i].1.hash)
                          && forall j :: 0 <= j < i ==> !Reusable(rows[j], url)
  {
    for i := 0 to |rows|
      invariant forall j :: 0 <= j < i ==> !Reusable(rows[j], url)
    {
      if Reusable(rows[i], url) {
        return Some(Ref(rows[i].0, rows[i].1.hash));
      }
    }
    return None;
  }

  predicate IsNamed(row: (string, FilterRow), name: string) {
    TrimSpace(row.1.name) == name && row.0 != "" && row.1.hash != ""
  }

  /** The first complete filter of that name. */
  method FilterNamed(rows: seq<(string, FilterRow)>, name: string) returns (found: Option<Ref>)
    ensures found.None? ==>
              forall i :: 0 <= i < |rows| ==> TrimSpace(rows[i].1.name) != name || rows[i].0 == "" || rows[i].1.hash == ""
    ensures found.Some? ==>
              exists i :: 0 <= i < |rows| && IsNamed(rows[i], name) && found.value == Ref(rows[i].0, rows[i].1.hash)
                          && forall j :: 0 <= j < i ==> !IsNamed(rows[j], name)
  {
    for i := 0 to |rows|
      invariant forall j :: 0 <= j < i ==> !IsNamed(rows[j], name)
    {
      if IsNamed(rows[i], name) {
        return Some(Ref(rows[i].0, rows[i].1.hash));
      }
    }
    return None;
  }

  predicate Suits(row: (string, BroadcasterRow), target: Target, path: string) {
    row.1.target == target && DestinationsInclude(row.1.dests, path) && row.0 != ""
  }

  /** The right configuration outweighs a known hash. */
  function Score(row: (string, BroadcasterRow), configID: string): nat {
    (if row.1.configID != "" && ToLower(row.1.configID) == ToLower(configID) then 10 else 0) +
    (if row.1.hash != "" then 5 else 0)
  }

  /** The row is for this configuration, whose id may be written in either case. */
  ghost predicate IsForConfig(row: BroadcasterRow, configID: string) {
    row.configID != "" && SameLetters(row.configID, configID)
  }

  /** One row beats another by its configuration, and only between equals by having a hash. */
  lemma ScoreOrder(q: (string, BroadcasterRow), r: (string, BroadcasterRow), configID: string)
    ensures Score(q, configID) < Score(r, configID) <==>
            if IsForConfig(q.1, configID) != IsForConfig(r.1, configID) then IsForConfig(r.1, configID)
            else q.1.hash == "" && r.1.hash != ""
  {
    SameLettersIff(q.1.configID, configID);
    SameLettersIff(r.1.configID, configID);
  }

  /** Among the first n rows, i is the earliest suitable one with the highest score. */
  ghost predicate IsBest(rows: seq<(string, BroadcasterRow)>, n: nat, i: int, configID: string, target: Target,
                         path: string)
    requires n <= |rows|
  {
    && 0 <= i < n && Suits(rows[i], target, path)
    && forall j :: 0 <= j < n && Suits(rows[j], target, path) ==>
         Score(rows[j], configID) < Score(rows[i], configID) ||
         (Score(rows[j], configID) == Score(rows[i], configID) && i <= j)
  }

  method BestBroadcaster(rows: seq<(string, BroadcasterRow)>, configID: string, target: Target, path: string)
    returns (found: Option<Ref>)
    ensures found.None? ==>
              forall i :: 0 <= i < |rows| ==>
                rows[i].1.target != target || !DestinationsInclude(rows[i].1.dests, path) || rows[i].0 == ""
    ensures found.Some? ==>
              exists i :: IsBest(rows, |rows|, i, configID, target, path)
                          && found.value == Ref(rows[i].0, rows[i].1.hash)
  {
    found := None;
    ghost var best := -1;
    var bestScore := 0;
    for i := 0 to |rows|
      invariant found.None? ==> forall j :: 0 <= j < i ==> !Suits(rows[j], target, path)
      invariant found.Some? ==> IsBest(rows, i, best, configID, target, path)
      invariant found.Some? ==> bestScore == Score(rows[best], configID)
      invariant found.Some? ==> found.value == Ref(rows[best].0, rows[best].1.hash)
    {
      if Suits(rows[i], target, path) {
        var score := Score(rows[i], configID);
        if found.None? || score > bestScore || (score == bestScore && rows[i].1.hash != "" && found.value.hash == "") {
          found, bestScore, best := Some(Ref(rows[i].0, rows[i].1.hash)), score, i;
        }
      }
    }
  }
}
