/** The reverse index of groups: for every user the groups it belongs to, in order. */
module GroupIndex {
  import opened Text

  // ---------- The order of sort.Strings ----------

  predicate Less(a: string, b: string) {
    b != "" && (a == "" || a[0] < b[0] || (a[0] == b[0] && Less(a[1..], b[1..])))
  }

  /** The strings agree up to position k, where the first one ends or has the smaller byte. */
  predicate SmallerAt(a: string, b: string, k: nat) {
    k <= |a| && k < |b| && a[..k] == b[..k] && (k == |a| || a[k] < b[k])
  }

  lemma {:induction false} LessIff(a: string, b: string)
    ensures Less(a, b) <==> exists k :: SmallerAt(a, b, k)
  {
    if b == "" || a == "" {
      assert b != "" ==> SmallerAt(a, b, 0);
    } else if a[0] != b[0] {
      assert a[0] < b[0] ==> SmallerAt(a, b, 0);
      forall k: nat | SmallerAt(a, b, k) ensures a[0] < b[0] {
        assert k > 0 ==> a[..k][0] == b[..k][0];
      }
    } else {
      LessIff(a[1..], b[1..]);
      forall k: nat | SmallerAt(a, b, k) ensures SmallerAt(a[1..], b[1..], k - 1) {
        assert a[1..][..k - 1] == a[..k][1..] && b[1..][..k - 1] == b[..k][1..];
      }
      forall k: nat | SmallerAt(a[1..], b[1..], k) ensures SmallerAt(a, b, k + 1) {
        assert a[..k + 1] == [a[0]] + a[1..][..k] && b[..k + 1] == [b[0]] + b[1..][..k];
      }
    }
  }

  lemma {:induction false} LessTotal(a: string, b: string)
    ensures a == b || Less(a, b) || Less(b, a)
  {
    if a != "" && b != "" && a[0] == b[0] {
      LessTotal(a[1..], b[1..]);
      if a[1..] == b[1..] { assert a == [a[0]] + a[1..] && b == [b[0]] + b[1..]; }
    }
  }

  lemma {:induction false} LessStrict(a: string, b: string)
    ensures !(Less(a, b) && Less(b, a))
  {
    if a != "" && b != "" && a[0] == b[0] { LessStrict(a[1..], b[1..]); }
  }

  lemma {:induction false} LessTransitive(a: string, b: string, c: string)
    requires Less(a, b) && Less(b, c)
    ensures Less(a, c)
  {
    if a != "" && a[0] == b[0] == c[0] { LessTransitive(a[1..], b[1..], c[1..]); }
  }

  ghost predicate StrictlySorted(s: seq<string>) {
    forall i, j :: 0 <= i < j < |s| ==> Less(s[i], s[j])
  }

  lemma HeadIn(s: seq<string>)
    requires s != []
    ensures exists x :: x in s
  {
    assert s[0] in s;
  }

  /** A strictly sorted list is determined by what it contains. */
  lemma {:induction false} SortedIsUnique(s: seq<string>, t: seq<string>)
    requires StrictlySorted(s) && StrictlySorted(t)
    requires forall x :: x in s <==> x in t
    ensures s == t
  {
    if s == [] {
      if t != [] {
        HeadIn(t);
        assert false;
      }
    } else {
      assert s[0] in t && t != [];
      assert t[0] in s;
      var i :| 0 <= i < |t| && t[i] == s[0];
      var j :| 0 <= j < |s| && s[j] == t[0];
      LessStrict(s[0], t[0]);
      assert s[0] == t[0];
      forall x ensures x in s[1..] <==> x in t[1..] {
        if x in s[1..] {
          var k :| 0 < k < |s| && s[k] == x;
          LessStrict(s[0], x);
          assert x in t && x != t[0];
        }
        if x in t[1..] {
          var k :| 0 < k < |t| && t[k] == x;
          LessStrict(t[0], x);
          assert x in s && x != s[0];
        }
      }
      SortedIsUnique(s[1..], t[1..]);
      assert s == [s[0]] + s[1..] && t == [t[0]] + t[1..];
    }
  }

  /** sort.Strings, on a list without duplicates. */
  method Sort(s: seq<string>) returns (t: seq<string>)
    requires forall i, j :: 0 <= i < j < |s| ==> s[i] != s[j]
    ensures StrictlySorted(t) && forall x :: x in t <==> x in s
  {
    t := [];
    for k := 0 to |s|
      invariant StrictlySorted(t) && forall x :: x in t <==> x in s[..k]
    {
      ghost var before := t;
      t := Insert(s[k], t);
      assert s[..k + 1] == s[..k] + [s[k]];
    }
    assert s[..|s|] == s;
  }

  method Insert(x: string, s: seq<string>) returns (t: seq<string>)
    requires StrictlySorted(s) && x !in s
    ensures StrictlySorted(t) && forall y :: y in t <==> y == x || y in s
  {
    var i := 0;
    while i < |s| && Less(s[i], x)
      invariant 0 <= i <= |s| && forall k :: 0 <= k < i ==> Less(s[k], x)
    {
      i := i + 1;
    }
    forall k | i <= k < |s| ensures Less(x, s[k]) {
      LessTotal(x, s[i]);
      if i < k { LessTransitive(x, s[i], s[k]); }
    }
    t := s[..i] + [x] + s[i..];
    assert s == s[..i] + s[i..];
  }

  // ---------- The index ----------

  type Groups = map<string, seq<string>>

  /** g lists u: the meaning of the configuration. */
  predicate Member(groups: Groups, g: string, u: string) {
    g in groups && u in groups[g]
  }

  /** u is listed under g: the meaning of the index. */
  predicate Listed(index: Groups, u: string, g: string) {
    u in index && g in index[u]
  }

  ghost predicate IsReverse(index: Groups, groups: Groups) {
    && (forall u, g :: Listed(index, u, g) <==> Member(groups, g, u))
    && (forall u :: u in index ==> index[u] != [] && StrictlySorted(index[u]))
  }

  /** There is one such index, whatever the order in which groups, users and entries are visited. */
  lemma ReverseIsUnique(a: Groups, b: Groups, groups: Groups)
    requires IsReverse(a, groups) && IsReverse(b, groups)
    ensures a == b
  {
    SameUsers(a, b, groups);
    SameUsers(b, a, groups);
    forall u | u in a ensures a[u] == b[u] {
      forall g ensures g in a[u] <==> g in b[u] {
        assert Listed(a, u, g) <==> Member(groups, g, u);
        assert Listed(b, u, g) <==> Member(groups, g, u);
      }
      SortedIsUnique(a[u], b[u]);
    }
  }

  lemma SameUsers(a: Groups, b: Groups, groups: Groups)
    requires IsReverse(a, groups) && IsReverse(b, groups)
    ensures a.Keys <= b.Keys
  {
    forall u | u in a ensures u in b {
      assert Listed(a, u, a[u][0]);
      assert Listed(b, u, a[u][0]);
    }
  }

  /** While the groups are visited: the lists hold what was seen, each group once. */
  ghost predicate Partial(index: Groups, groups: Groups, done: set<string>, group: string, users: seq<string>) {
    && (forall u, g :: Listed(index, u, g) <==> (g in done && Member(groups, g, u)) || (g == group && u in users))
    && (forall u :: u in index ==> index[u] != [] && forall i, j :: 0 <= i < j < |index[u]| ==>
          index[u][i] != index[u][j])
  }

  method IndexGroupsByUser(groups: Groups) returns (index: Groups)
    ensures IsReverse(index, groups)
  {
    index := map[];
    if |groups| == 0 { return; }
    var todo := groups.Keys;
    while todo != {}
      invariant todo <= groups.Keys
      invariant Partial(index, groups, groups.Keys - todo, "", [])
    {
      var group :| group in todo;
      index := VisitGroup(groups, groups.Keys - todo, group, index);
      todo := todo - {group};
    }
    index := SortAll(groups, index);
  }

  /** One user more of a group. */
  lemma PartialNext(index: Groups, groups: Groups, done: set<string>, group: string, users: seq<string>, user: string)
    requires Partial(index, groups, done, group, users) && group !in done && user !in users
    ensures Partial(index[user := (if user in index then index[user] else []) + [group]], groups, done, group,
            users + [user])
  {
    var before := if user in index then index[user] else [];
    assert !Listed(index, user, group);
    assert group !in before;
    var next := index[user := before + [group]];
    forall u, g ensures Listed(next, u, g) <==> Listed(index, u, g) || (u == user && g == group) {
    }
  }

  method VisitGroup(groups: Groups, ghost done: set<string>, group: string, before: Groups) returns (index: Groups)
    requires Partial(before, groups, done, "", []) && group in groups && group !in done
    ensures Partial(index, groups, done + {group}, "", [])
  {
    index := before;
    var seen := {};
    for k := 0 to |groups[group]|
      invariant Partial(index, groups, done, group, groups[group][..k])
      invariant forall u :: u in seen <==> u in groups[group][..k]
    {
      var username := groups[group][k];
      assert groups[group][..k + 1] == groups[group][..k] + [username];
      if username !in seen {
        seen := seen + {username};
        PartialNext(index, groups, done, group, groups[group][..k], username);
        index := index[username := (if username in index then index[username] else []) + [group]];
      }
    }
    assert groups[group][..|groups[group]|] == groups[group];
  }

  method SortAll(groups: Groups, before: Groups) returns (index: Groups)
    requires Partial(before, groups, groups.Keys, "", [])
    ensures IsReverse(index, groups)
  {
    index := before;
    var todo := index.Keys;
    while todo != {}
      invariant todo <= index.Keys == before.Keys
      invariant forall u :: u in todo ==> index[u] == before[u]
      invariant forall u, g :: Listed(index, u, g) <==> Listed(before, u, g)
      invariant forall u :: u in index ==> index[u] != [] && (u !in todo ==> StrictlySorted(index[u]))
    {
      var username :| username in todo;
      var sorted := Sort(index[username]);
      assert before[username][0] in sorted;
      index := index[username := sorted];
      todo := todo - {username};
    }
  }
}
