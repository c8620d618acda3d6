/** What an operation makes of a configuration, told from what a reader finds in it: at the operation's path, at every
    path apart from it, and which keys the maps on the way have. There is exactly one such configuration. */
module ConfigMeaning {
  import opened Text
  import opened ConfigValues

  // ---------- The maps on the way ----------

  /** An entry of a map goes by the last segment of the path. */
  predicate IsMapPath(path: seq<string>) {
    || (|path| == 1 && path[0] in {"Users", "Groups", "Pages", "Services"})
    || (|path| == 2 && path[0] == "Route" && path[1] == "Allow")
    || (|path| == 3 && path[0] == "Services" && path[2] == "Params")
  }

  function Domain<V>(m: Option<map<string, V>>): Option<set<string>> {
    if m.None? then None else Some(m.value.Keys)
  }

  /** The keys of the map that a reader finds, or None if it is nil. */
  function KeysOf(found: Found): Option<set<string>> {
    match found
    case Is(StringMap(m)) => Domain(m)
    case Is(SliceMap(m)) => Domain(m)
    case Is(ServiceMap(m)) => Domain(m)
    case _ => None
  }

  function KeysAt(c: ConfigValue, path: seq<string>): Option<set<string>>
    requires path != []
  {
    KeysOf(Read(c, path))
  }

  /** A Set on or below an entry makes sure that there is one. A Remove takes an entry away that it names, and nothing
      else; neither turns a map into a nil one or the other way round without need. */
  predicate KeysFollow(before: Option<set<string>>, after: Option<set<string>>, op: Operation, key: string,
                       last: bool) {
    if op.Set? then after == Some((if before.Some? then before.value else {}) + {key})
    else if last && before.Some? then after == Some(before.value - {key})
    else after == before
  }

  /** What a reader finds where the operation has worked. */
  function Target(op: Operation, path: seq<string>): Found
    requires path != [] && !op.Unknown?
  {
    if op.Set? then Is(op.value) else Nothing(path)
  }

  ghost predicate IsResult(c: ConfigValue, op: Operation, path: seq<string>, r: ConfigValue)
    requires path != [] && !op.Unknown?
  {
    && Read(r, path) == Target(op, path)
    && (forall other :: Readable(other) && Apart(path, other) ==> Read(r, other) == Read(c, other))
    && (forall k :: 1 <= k < |path| && IsMapPath(path[..k]) ==>
          KeysFollow(KeysAt(c, path[..k]), KeysAt(r, path[..k]), op, path[k], |path| == k + 1))
  }

  // ---------- The editor's result is one ----------

  lemma DomainWith<V>(m: Option<map<string, V>>, key: string, v: V)
    ensures Domain(Some(Entries(m)[key := v])) == Some((if Domain(m).Some? then Domain(m).value else {}) + {key})
  {
    assert Entries(m).Keys == if Domain(m).Some? then Domain(m).value else {};
    assert Entries(m)[key := v].Keys == Entries(m).Keys + {key};
  }

  lemma DomainWithout<V>(m: Option<map<string, V>>, key: string)
    ensures Domain(Without(m, key)) == if Domain(m).Some? then Some(Domain(m).value - {key}) else None
  {
    if key in Entries(m) {
      assert (m.value - {key}).Keys == m.value.Keys - {key};
    } else if m.Some? {
      assert m.value.Keys - {key} == m.value.Keys;
    }
  }

  lemma StringsFollow(m: Strings, op: Operation, path: seq<string>)
    requires |path| == 1 && EditStringsPath(m, op, path).Some?
    ensures KeysFollow(Domain(m), Domain(EditStringsPath(m, op, path).value), op, path[0], true)
  {
    if op.Set? {
      DomainWith(m, path[0], op.value.s);
    } else {
      DomainWithout(m, path[0]);
    }
  }

  lemma SlicesFollow(m: Slices, op: Operation, path: seq<string>)
    requires |path| == 1 && EditSlicesPath(m, op, path).Some?
    ensures KeysFollow(Domain(m), Domain(EditSlicesPath(m, op, path).value), op, path[0], true)
  {
    if op.Set? {
      DomainWith(m, path[0], op.value.slice);
    } else {
      DomainWithout(m, path[0]);
    }
  }

  lemma ServicesFollow(m: Services, op: Operation, path: seq<string>)
    requires |path| >= 1 && EditServices(m, op, path).Some? && !op.Unknown?
    ensures KeysFollow(Domain(m), Domain(EditServices(m, op, path).value), op, path[0], |path| == 1)
  {
    if |path| == 1 && op.Remove? {
      DomainWithout(m, path[0]);
    } else if !(op.Remove? && path[0] !in Entries(m)) {
      var s := EditServices(m, op, path).value.value[path[0]];
      DomainWith(m, path[0], s);
      assert op.Remove? ==> m.value.Keys + {path[0]} == m.value.Keys;
    }
  }

  lemma ParamsFollow(m: Services, op: Operation, path: seq<string>)
    requires |path| == 3 && path[1] == "Params" && EditServices(m, op, path).Some? && !op.Unknown?
    ensures KeysFollow(Domain(ServiceAt(m, path[0]).params),
                       Domain(ServiceAt(EditServices(m, op, path).value, path[0]).params), op, path[2], true)
  {
    if !(op.Remove? && path[0] !in Entries(m)) {
      assert path[1..][1..] == [path[2]];
      StringsFollow(ServiceAt(m, path[0]).params, op, [path[2]]);
    }
  }

  lemma TopKeysFollow(c: ConfigValue, op: Operation, path: seq<string>)
    requires Addressable(path) && Apply(c, op, path).Some? && !op.Unknown? && |path| >= 2 && IsMapPath([path[0]])
    ensures KeysFollow(KeysAt(c, [path[0]]), KeysAt(Apply(c, op, path).value, [path[0]]), op, path[1], |path| == 2)
  {
    var rest := path[1..];
    if path[0] == "Users" {
      StringsFollow(c.users, op, rest);
    } else if path[0] == "Pages" {
      StringsFollow(c.pages, op, rest);
    } else if path[0] == "Groups" {
      SlicesFollow(c.groups, op, rest);
    } else {
      ServicesFollow(c.services, op, rest);
    }
  }

  lemma RouteKeysFollow(c: ConfigValue, op: Operation, path: seq<string>)
    requires Addressable(path) && Apply(c, op, path).Some? && !op.Unknown? && |path| == 3 && path[0] == "Route"
    ensures KeysFollow(KeysAt(c, path[..2]), KeysAt(Apply(c, op, path).value, path[..2]), op, path[2], true)
  {
    assert path[1..][1..] == [path[2]];
    SlicesFollow(c.allow, op, [path[2]]);
  }

  lemma ParamsKeysFollow(c: ConfigValue, op: Operation, path: seq<string>)
    requires Addressable(path) && Apply(c, op, path).Some? && !op.Unknown?
    requires |path| == 4 && path[0] == "Services" && path[2] == "Params"
    ensures KeysFollow(KeysAt(c, path[..3]), KeysAt(Apply(c, op, path).value, path[..3]), op, path[3], true)
  {
    ParamsFollow(c.services, op, path[1..]);
    assert path[..3][2..] == ["Params"];
  }

  lemma KeysFollowApply(c: ConfigValue, op: Operation, path: seq<string>, k: nat)
    requires Addressable(path) && Apply(c, op, path).Some? && !op.Unknown?
    requires 1 <= k < |path| && IsMapPath(path[..k])
    ensures KeysFollow(KeysAt(c, path[..k]), KeysAt(Apply(c, op, path).value, path[..k]), op, path[k], |path| == k + 1)
  {
    if k == 1 {
      assert path[..1] == [path[0]];
      TopKeysFollow(c, op, path);
    } else if k == 2 {
      RouteKeysFollow(c, op, path);
    } else {
      ParamsKeysFollow(c, op, path);
    }
  }

  lemma ApplyIsResult(c: ConfigValue, op: Operation, path: seq<string>)
    requires Addressable(path) && Apply(c, op, path).Some? && !op.Unknown?
    ensures IsResult(c, op, path, Apply(c, op, path).value)
  {
    if op.Set? {
      SetAcceptedIff(c, path, op.value);
      SetThenRead(c, path, op.value);
    } else {
      RemoveThenRead(c, path);
    }
    var r := Apply(c, op, path).value;
    forall other | Readable(other) && Apart(path, other) ensures Read(r, other) == Read(c, other) {
      ElsewhereUnchanged(c, op, path, other);
    }
    forall k | 1 <= k < |path| && IsMapPath(path[..k])
      ensures KeysFollow(KeysAt(c, path[..k]), KeysAt(r, path[..k]), op, path[k], |path| == k + 1)
    {
      KeysFollowApply(c, op, path, k);
    }
  }

  // ---------- There is no other ----------

  lemma SameMaps<V>(m: Option<map<string, V>>, n: Option<map<string, V>>)
    requires Domain(m) == Domain(n) && (m.Some? ==> forall k :: k in m.value ==> m.value[k] == n.value[k])
    ensures m == n
  {
    if m.Some? {
      assert m.value == n.value;
    }
  }

  /** Both results read the same at every path that is no part of the way. */
  lemma ResultsReadAlike(c: ConfigValue, op: Operation, path: seq<string>, r: ConfigValue, q: ConfigValue,
                         other: seq<string>)
    requires Addressable(path) && !op.Unknown? && IsResult(c, op, path, r) && IsResult(c, op, path, q)
    requires Readable(other) && (other == path || Apart(path, other))
    ensures Read(r, other) == Read(q, other)
  {
  }

  lemma ResultsHaveSameKeys(c: ConfigValue, op: Operation, path: seq<string>, r: ConfigValue, q: ConfigValue, k: nat)
    requires Addressable(path) && !op.Unknown? && IsResult(c, op, path, r) && IsResult(c, op, path, q)
    requires 1 <= k < |path| && IsMapPath(path[..k])
    ensures KeysAt(r, path[..k]) == KeysAt(q, path[..k])
  {
  }

  lemma ResultIsUnique(c: ConfigValue, op: Operation, path: seq<string>, r: ConfigValue, q: ConfigValue)
    requires Addressable(path) && !op.Unknown? && IsResult(c, op, path, r) && IsResult(c, op, path, q)
    ensures r == q
  {
    forall field | field in FIELDS ensures Read(r, [field]) == Read(q, [field]) {
      if field != path[0] || |path| == 1 {
        ResultsReadAlike(c, op, path, r, q, [field]);
      } else {
        assert path[..1] == [field];
        PartsAgree(c, op, path, r, q);
      }
    }
    SameFields(r, q);
  }

  const FIELDS := {"Listen", "TLS", "ServiceDir", "ServiceTempDir", "Log", "API", "Users", "Groups", "Route",
                   "Services", "Pages"}

  lemma SameFields(r: ConfigValue, q: ConfigValue)
    requires forall field :: field in FIELDS ==> Read(r, [field]) == Read(q, [field])
    ensures r == q
  {
    assert Read(r, ["Listen"]) == Read(q, ["Listen"]) && Read(r, ["TLS"]) == Read(q, ["TLS"]);
    assert Read(r, ["ServiceDir"]) == Read(q, ["ServiceDir"]) && Read(r, ["Log"]) == Read(q, ["Log"]);
    assert Read(r, ["ServiceTempDir"]) == Read(q, ["ServiceTempDir"]) && Read(r, ["API"]) == Read(q, ["API"]);
    assert Read(r, ["Users"]) == Read(q, ["Users"]) && Read(r, ["Groups"]) == Read(q, ["Groups"]);
    assert Read(r, ["Route"]) == Read(q, ["Route"]) && Read(r, ["Services"]) == Read(q, ["Services"]);
    assert Read(r, ["Pages"]) == Read(q, ["Pages"]);
  }

  /** Below the top-level field that the path goes through. */
  lemma PartsAgree(c: ConfigValue, op: Operation, path: seq<string>, r: ConfigValue, q: ConfigValue)
    requires Addressable(path) && !op.Unknown? && IsResult(c, op, path, r) && IsResult(c, op, path, q) && |path| >= 2
    ensures Read(r, [path[0]]) == Read(q, [path[0]])
  {
    if path[0] == "Log" {
      LogsAgree(c, op, path, r, q);
    } else if path[0] == "API" {
      CapabilitiesAgree(c, op, path, r, q);
    } else if path[0] == "Route" {
      RoutesAgree(c, op, path, r, q);
    } else if path[0] == "Services" {
      ServicesAgree(c, op, path, r, q);
    } else {
      EntriesAgree(c, op, path, r, q);
    }
  }

  lemma LogsAgree(c: ConfigValue, op: Operation, path: seq<string>, r: ConfigValue, q: ConfigValue)
    requires Addressable(path) && !op.Unknown? && IsResult(c, op, path, r) && IsResult(c, op, path, q)
    requires |path| == 2 && path[0] == "Log"
    ensures r.log == q.log
  {
    ResultsReadAlike(c, op, path, r, q, ["Log", "Format"]);
    ResultsReadAlike(c, op, path, r, q, ["Log", "Level"]);
  }

  lemma CapabilitiesAgree(c: ConfigValue, op: Operation, path: seq<string>, r: ConfigValue, q: ConfigValue)
    requires Addressable(path) && !op.Unknown? && IsResult(c, op, path, r) && IsResult(c, op, path, q)
    requires |path| == 2 && path[0] == "API"
    ensures r.api == q.api
  {
    forall capability | capability in CAPABILITIES
      ensures Capability(r.api, capability) == Capability(q.api, capability)
    {
      ResultsReadAlike(c, op, path, r, q, ["API", capability]);
    }
    SameCapabilities(r.api, q.api);
  }

  lemma SameCapabilities(a: APIConfig, b: APIConfig)
    requires forall capability :: capability in CAPABILITIES ==> Capability(a, capability) == Capability(b, capability)
    ensures a == b
  {
    assert Capability(a, "User") == Capability(b, "User") && Capability(a, "Group") == Capability(b, "Group");
    assert Capability(a, "Pages") == Capability(b, "Pages") && Capability(a, "Access") == Capability(b, "Access");
    assert Capability(a, "Service") == Capability(b, "Service") && Capability(a, "Log") == Capability(b, "Log");
    assert Capability(a, "Network") == Capability(b, "Network");
  }

  lemma EntriesAgree(c: ConfigValue, op: Operation, path: seq<string>, r: ConfigValue, q: ConfigValue)
    requires Addressable(path) && !op.Unknown? && IsResult(c, op, path, r) && IsResult(c, op, path, q)
    requires |path| == 2 && path[0] in {"Users", "Groups", "Pages"}
    ensures Read(r, [path[0]]) == Read(q, [path[0]])
  {
    assert path[..1] == [path[0]];
    ResultsHaveSameKeys(c, op, path, r, q, 1);
    forall k ensures Read(r, [path[0], k]) == Read(q, [path[0], k]) {
      ResultsReadAlike(c, op, path, r, q, [path[0], k]);
    }
    SameEntries(r, q, path[0]);
  }

  lemma SameEntries(r: ConfigValue, q: ConfigValue, field: string)
    requires field in {"Users", "Groups", "Pages"} && KeysAt(r, [field]) == KeysAt(q, [field])
    requires forall k :: Read(r, [field, k]) == Read(q, [field, k])
    ensures Read(r, [field]) == Read(q, [field])
  {
    assert forall k :: Read(r, [field, k]) == Read(q, [field, k]);
    if field == "Users" {
      forall k | r.users.Some? && k in r.users.value
        ensures k in q.users.value && r.users.value[k] == q.users.value[k]
      {
        assert Read(r, [field, k]) == Read(q, [field, k]);
      }
      SameMaps(r.users, q.users);
    } else if field == "Pages" {
      forall k | r.pages.Some? && k in r.pages.value
        ensures k in q.pages.value && r.pages.value[k] == q.pages.value[k]
      {
        assert Read(r, [field, k]) == Read(q, [field, k]);
      }
      SameMaps(r.pages, q.pages);
    } else {
      forall k | r.groups.Some? && k in r.groups.value
        ensures k in q.groups.value && r.groups.value[k] == q.groups.value[k]
      {
        assert Read(r, [field, k]) == Read(q, [field, k]);
      }
      SameMaps(r.groups, q.groups);
    }
  }

  lemma RoutesAgree(c: ConfigValue, op: Operation, path: seq<string>, r: ConfigValue, q: ConfigValue)
    requires Addressable(path) && !op.Unknown? && IsResult(c, op, path, r) && IsResult(c, op, path, q)
    requires |path| >= 2 && path[0] == "Route"
    ensures r.allow == q.allow
  {
    if |path| == 2 {
      ResultsReadAlike(c, op, path, r, q, path);
    } else {
      assert path[..2] == ["Route", "Allow"];
      ResultsHaveSameKeys(c, op, path, r, q, 2);
      forall k | r.allow.Some? && k in r.allow.value
        ensures k in q.allow.value && r.allow.value[k] == q.allow.value[k]
      {
        ResultsReadAlike(c, op, path, r, q, ["Route", "Allow", k]);
      }
      SameMaps(r.allow, q.allow);
    }
  }

  // Services.

  lemma ServicesAgree(c: ConfigValue, op: Operation, path: seq<string>, r: ConfigValue, q: ConfigValue)
    requires Addressable(path) && !op.Unknown? && IsResult(c, op, path, r) && IsResult(c, op, path, q)
    requires |path| >= 2 && path[0] == "Services"
    ensures r.services == q.services
  {
    assert path[..1] == ["Services"];
    ResultsHaveSameKeys(c, op, path, r, q, 1);
    forall name | r.services.Some? && name in r.services.value
      ensures name in q.services.value && r.services.value[name] == q.services.value[name]
    {
      if name != path[1] || |path| == 2 {
        ResultsReadAlike(c, op, path, r, q, ["Services", name]);
      } else {
        FieldsAgree(c, op, path, r, q);
      }
    }
    SameMaps(r.services, q.services);
  }

  lemma FieldAgrees(c: ConfigValue, op: Operation, path: seq<string>, r: ConfigValue, q: ConfigValue, field: string)
    requires Addressable(path) && !op.Unknown? && IsResult(c, op, path, r) && IsResult(c, op, path, q)
    requires |path| >= 3 && path[0] == "Services" && field in {"Restart", "RunAsUser", "Checksum", "Allow", "Params"}
    requires path[2] != field || |path| == 3
    ensures ReadField(ServiceAt(r.services, path[1]), [field]) == ReadField(ServiceAt(q.services, path[1]), [field])
  {
    var other := ["Services", path[1], field];
    ResultsReadAlike(c, op, path, r, q, other);
    assert other[2..] == [field];
  }

  lemma FieldsAgree(c: ConfigValue, op: Operation, path: seq<string>, r: ConfigValue, q: ConfigValue)
    requires Addressable(path) && !op.Unknown? && IsResult(c, op, path, r) && IsResult(c, op, path, q)
    requires |path| >= 3 && path[0] == "Services"
    ensures ServiceAt(r.services, path[1]) == ServiceAt(q.services, path[1])
  {
    FieldAgrees(c, op, path, r, q, "Restart");
    FieldAgrees(c, op, path, r, q, "RunAsUser");
    FieldAgrees(c, op, path, r, q, "Checksum");
    FieldAgrees(c, op, path, r, q, "Allow");
    if |path| == 3 {
      FieldAgrees(c, op, path, r, q, "Params");
    } else {
      ParamsAgree(c, op, path, r, q);
    }
  }

  lemma ParamsAgree(c: ConfigValue, op: Operation, path: seq<string>, r: ConfigValue, q: ConfigValue)
    requires Addressable(path) && !op.Unknown? && IsResult(c, op, path, r) && IsResult(c, op, path, q)
    requires |path| == 4 && path[0] == "Services"
    ensures ServiceAt(r.services, path[1]).params == ServiceAt(q.services, path[1]).params
  {
    var name := path[1];
    assert path[..3] == ["Services", name, "Params"] && path[..3][2..] == ["Params"];
    ResultsHaveSameKeys(c, op, path, r, q, 3);
    var m, n := ServiceAt(r.services, name).params, ServiceAt(q.services, name).params;
    forall k | m.Some? && k in m.value ensures k in n.value && m.value[k] == n.value[k] {
      var other := ["Services", name, "Params", k];
      ResultsReadAlike(c, op, path, r, q, other);
      assert other[2..] == ["Params", k];
    }
    SameMaps(m, n);
  }

  // ---------- The theorems ----------

  /** An accepted operation makes exactly this of the configuration. */
  lemma ApplyIff(c: ConfigValue, op: Operation, path: seq<string>, r: ConfigValue)
    requires Addressable(path) && !op.Unknown? && (op.Set? ==> WellTyped(path, op.value))
    ensures Apply(c, op, path) == Some(r) <==> IsResult(c, op, path, r)
  {
    if op.Set? {
      SetAcceptedIff(c, path, op.value);
    } else {
      RemoveAcceptedIff(c, path);
    }
    ApplyIsResult(c, op, path);
    if IsResult(c, op, path, r) {
      ResultIsUnique(c, op, path, r, Apply(c, op, path).value);
    }
  }

  /** To remove what is not there changes nothing, and neither does any removal below a service that is not
      configured, whatever the rest of the path. */
  lemma RemovingNothing(c: ConfigValue, path: seq<string>)
    requires || (Addressable(path) && Read(c, path) == Nothing(path))
             || (|path| >= 3 && path[0] == "Services" && path[1] != "" && path[1] !in Entries(c.services))
    ensures Apply(c, Remove, path) == Some(c)
  {
    if Addressable(path) && Read(c, path) == Nothing(path) {
      forall k | 1 <= k < |path| && IsMapPath(path[..k])
        ensures KeysFollow(KeysAt(c, path[..k]), KeysAt(c, path[..k]), Remove, path[k], |path| == k + 1)
      {
        NothingHasNoKey(c, path, k);
      }
      ApplyIff(c, Remove, path, c);
    }
  }

  lemma NothingHasNoKey(c: ConfigValue, path: seq<string>, k: nat)
    requires Addressable(path) && Read(c, path) == Nothing(path) && 1 <= k < |path| && IsMapPath(path[..k])
    ensures KeysFollow(KeysAt(c, path[..k]), KeysAt(c, path[..k]), Remove, path[k], |path| == k + 1)
  {
    var keys := KeysAt(c, path[..k]);
    if |path| == k + 1 && keys.Some? {
      assert path[k] !in keys.value by {
        assert k == 3 ==> path[..3][2..] == ["Params"] && path[2..] == ["Params", path[3]];
      }
      assert keys.value - {path[k]} == keys.value;
    }
  }

  /** An operation that is neither a Set nor a Remove is refused on every path. */
  lemma UnknownIsRefused(c: ConfigValue, path: seq<string>)
    ensures Apply(c, Unknown, path).None?
  {
  }
}
