/**
 * The test runner's entry logic: parsing of resource-identifier overrides
 * (`-r name=value,name.attr=value`), rewriting of the resource requests of
 * a test tree with those overrides, the choice between the plain and the
 * multiprocess runner, and the number of times a run is repeated.
 */
module Runner {
  import opened Wrappers
  import opened Strings

  /** Separator of Django's field lookups, used to join dotted sub-attributes. */
  const SubfieldAccessor: string := "__"

  /** Field that an undotted override sets: the requested instance's name. */
  const NameField: string := "name"

  /** Request name -> (field -> value). */
  type Identifiers = map<string, map<string, string>>

  /** One `key=value` entry, resolved to the request and field it sets. */
  datatype Override = Override(request: string, field: string, value: string)

  /** The only way parsing fails: an entry holds no `=`, so `key, value = ...` cannot unpack it. */
  datatype ParseError = MissingValue(entry: string)

  /**
   * Request and field targeted by the key of an entry: `r` sets `r`'s
   * name, `r.a.b` sets field `a__b` of `r`.
   */
  function Target(key: string): (string, string)
  {
    var fields := Split(key, '.');
    if |fields| == 1 then (key, NameField)
    else (fields[0], Join(SubfieldAccessor, fields[1..]))
  }

  /** An undotted key names the request and sets its instance name. */
  lemma TargetUndotted(key: string)
    requires '.' !in key
    ensures Target(key) == (key, NameField)
  {
    SplitSingle(key, '.');
  }

  /** A dotted key `r.rest` sets field `rest` of `r`, its dots replaced by `__`. */
  lemma TargetDotted(request: string, rest: string)
    requires '.' !in request
    ensures Target(request + "." + rest) == (request, Join(SubfieldAccessor, Split(rest, '.')))
  {
    var key := request + "." + rest;
    SplitAt(key, '.', request, rest);
    assert Split(key, '.')[1..] == Split(rest, '.');
  }

  /** An entry split on its first `=` only; `None` when it holds none. */
  function EntryOverride(entry: string): (o: Option<Override>)
    ensures o.None? <==> '=' !in entry
  {
    match SplitOnce(entry, '=')
    case None => None
    case Some((key, value)) =>
      var (request, field) := Target(key);
      Some(Override(request, field, value))
  }

  /** The value of an entry is everything after its first `=`, further `=` included. */
  lemma EntryValueAfterFirstEquals(key: string, value: string)
    requires '=' !in key
    ensures EntryOverride(key + "=" + value).Some?
    ensures EntryOverride(key + "=" + value).value.value == value
    ensures (EntryOverride(key + "=" + value).value.request,
             EntryOverride(key + "=" + value).value.field) == Target(key)
  {
    SplitOnceAt(key + "=" + value, '=', key, value);
  }

  /** Entries parsed left to right; the first entry without `=` raises. */
  function ParseEntries(entries: seq<string>): (r: Result<seq<Override>, ParseError>)
    ensures r.Success? ==> |r.value| == |entries|
  {
    if entries == [] then Success([])
    else
      var init := ParseEntries(entries[..|entries| - 1]);
      var last := entries[|entries| - 1];
      if init.Failure? then init
      else if '=' !in last then Failure(MissingValue(last))
      else Success(init.value + [EntryOverride(last).value])
  }

  /** Writes `o.field := o.value` into the (possibly new) inner map of `o.request`. */
  function ApplyOverride(acc: Identifiers, o: Override): Identifiers
  {
    var inner := if o.request in acc then acc[o.request] else map[];
    acc[o.request := inner[o.field := o.value]]
  }

  /** The identifiers map after applying the overrides in order. */
  function Accumulate(os: seq<Override>): Identifiers
  {
    if os == [] then map[]
    else ApplyOverride(Accumulate(os[..|os| - 1]), os[|os| - 1])
  }

  /** Reference meaning of `parse_resource_identifiers`. */
  function Parse(resources: Option<string>): Result<Identifiers, ParseError>
  {
    if resources.None? || |resources.value| == 0 then Success(map[])
    else
      match ParseEntries(Split(resources.value, ','))
      case Failure(e) => Failure(e)
      case Success(os) => Success(Accumulate(os))
  }

  /** Parsing one more entry that holds `=` appends its override. */
  lemma ParseEntriesSnoc(entries: seq<string>, i: nat, os: seq<Override>)
    requires i < |entries| && '=' in entries[i]
    requires ParseEntries(entries[..i]) == Success(os)
    ensures ParseEntries(entries[..i + 1]) == Success(os + [EntryOverride(entries[i]).value])
  {
    var prefix := entries[..i + 1];
    assert prefix != [] && prefix[..|prefix| - 1] == entries[..i];
    assert prefix[|prefix| - 1] == entries[i];
  }

  /** Accumulating one more override applies it to the map so far. */
  lemma AccumulateSnoc(os: seq<Override>, o: Override)
    ensures Accumulate(os + [o]) == ApplyOverride(Accumulate(os), o)
  {
    var more := os + [o];
    assert more != [] && more[..|more| - 1] == os && more[|more| - 1] == o;
  }

  /** One more successfully parsed entry extends the overrides and the map. */
  lemma ParseEntriesStep(entries: seq<string>, i: nat, os: seq<Override>, o: Override)
    requires i < |entries|
    requires ParseEntries(entries[..i]) == Success(os)
    requires EntryOverride(entries[i]) == Some(o)
    ensures ParseEntries(entries[..i + 1]) == Success(os + [o])
    ensures Accumulate(os + [o]) == ApplyOverride(Accumulate(os), o)
  {
    assert '=' in entries[i] by {
      assert SplitOnce(entries[i], '=').Some?;
    }
    ParseEntriesSnoc(entries, i, os);
    AccumulateSnoc(os, o);
  }

  /** The first entry without `=` is the error of the whole list. */
  lemma {:induction false} ParseEntriesFirstMissing(entries: seq<string>, i: nat)
    requires i < |entries|
    requires forall j :: 0 <= j < i ==> '=' in entries[j]
    requires '=' !in entries[i]
    ensures ParseEntries(entries) == Failure(MissingValue(entries[i]))
  {
    var init := entries[..|entries| - 1];
    if i == |entries| - 1 {
      ParseEntriesFails(init);
    } else {
      ParseEntriesFirstMissing(init, i);
    }
  }

  /**
   * The entries from `i` on, parsed onto `acc` one after the other: the
   * state of the parsing loop, stopping at the first entry without `=`.
   */
  function ParseFrom(entries: seq<string>, i: nat, acc: Identifiers): Result<Identifiers, ParseError>
    requires i <= |entries|
    decreases |entries| - i
  {
    if i == |entries| then Success(acc)
    else
      match EntryOverride(entries[i])
      case None => Failure(MissingValue(entries[i]))
      case Some(o) => ParseFrom(entries, i + 1, ApplyOverride(acc, o))
  }

  /**
   * Parsing the remaining entries onto the map of the parsed prefix agrees
   * with parsing the whole list and folding its overrides.
   */
  lemma {:induction false} ParseFromAgrees(entries: seq<string>, i: nat, os: seq<Override>)
    requires i <= |entries|
    requires ParseEntries(entries[..i]) == Success(os)
    ensures ParseFrom(entries, i, Accumulate(os)) ==
            match ParseEntries(entries)
            case Failure(e) => Failure(e)
            case Success(all) => Success(Accumulate(all))
    decreases |entries| - i
  {
    if i == |entries| {
      assert entries[..i] == entries;
    } else {
      match EntryOverride(entries[i])
      case None =>
        ParseEntriesFails(entries[..i]);
        assert forall j :: 0 <= j < i ==> entries[..i][j] == entries[j];
        ParseEntriesFirstMissing(entries, i);
      case Some(o) =>
        ParseEntriesStep(entries, i, os, o);
        ParseFromAgrees(entries, i + 1, os + [o]);
    }
  }

  /**
   * `parse_resource_identifiers`: splits the string on `,`, each entry on its
   * first `=`, and fills the request -> fields map in entry order.
   */
  method ParseResourceIdentifiers(resources: Option<string>) returns (r: Result<Identifiers, ParseError>)
    ensures r == Parse(resources)
  {
    if resources.None? || |resources.value| == 0 {
      return Success(map[]);
    }
    var entries := Split(resources.value, ',');
    assert entries[..0] == [];
    ParseFromAgrees(entries, 0, []);
    var requests: Identifiers := map[];
    var i := 0;
    while i < |entries|
      invariant 0 <= i <= |entries|
      invariant ParseFrom(entries, i, requests) == ParseFrom(entries, 0, map[])
    {
      var split := SplitOnce(entries[i], '=');
      if split.None? {
        return Failure(MissingValue(entries[i]));
      }
      var (key, value) := split.value;
      var (request, field) := Target(key);
      var inner := if request in requests then requests[request] else map[];
      requests := requests[request := inner[field := value]];
      i := i + 1;
    }
    r := Success(requests);
  }

  /** An absent or empty string parses to the empty map. */
  lemma ParseEmpty(resources: Option<string>)
    requires resources.None? || resources.value == ""
    ensures Parse(resources) == Success(map[])
  {
  }

  /** Parsing of a list of entries fails exactly when some entry holds no `=`. */
  lemma {:induction false} ParseEntriesFails(entries: seq<string>)
    ensures ParseEntries(entries).Failure? <==> exists i :: 0 <= i < |entries| && '=' !in entries[i]
  {
    if entries != [] {
      var init := entries[..|entries| - 1];
      ParseEntriesFails(init);
      if ParseEntries(init).Failure? {
        var i :| 0 <= i < |init| && '=' !in init[i];
        assert entries[i] == init[i];
      } else {
        forall i | 0 <= i < |entries| - 1 ensures '=' in entries[i] {
          assert entries[i] == init[i];
        }
      }
    }
  }

  /** A non-empty string fails to parse exactly when one of its comma-separated entries has no `=`. */
  lemma ParseFailsIff(s: string)
    requires s != ""
    ensures Parse(Some(s)).Failure? <==>
            exists i :: 0 <= i < |Split(s, ',')| && '=' !in Split(s, ',')[i]
  {
    ParseEntriesFails(Split(s, ','));
    assert |s| != 0;
    assert Parse(Some(s)).Failure? <==> ParseEntries(Split(s, ',')).Failure?;
  }

  /** Parsed entries are the entries' overrides, in order. */
  lemma {:induction false} ParseEntriesOverrides(entries: seq<string>)
    requires ParseEntries(entries).Success?
    ensures forall i :: 0 <= i < |entries| ==>
              EntryOverride(entries[i]) == Some(ParseEntries(entries).value[i])
  {
    if entries != [] {
      var init := entries[..|entries| - 1];
      ParseEntriesOverrides(init);
      forall i | 0 <= i < |entries| - 1
        ensures EntryOverride(entries[i]) == Some(ParseEntries(entries).value[i])
      {
        assert entries[i] == init[i];
      }
    }
  }

  /** The map holds a (request, field) pair exactly when some override wrote it. */
  lemma {:induction false} AccumulateDomain(os: seq<Override>, request: string, field: string)
    ensures (request in Accumulate(os) && field in Accumulate(os)[request]) <==>
            exists i :: 0 <= i < |os| && os[i].request == request && os[i].field == field
  {
    if os != [] {
      var init := os[..|os| - 1];
      AccumulateDomain(init, request, field);
      AccumulateRequests(init);
      if exists i :: 0 <= i < |init| && init[i].request == request && init[i].field == field {
        var i :| 0 <= i < |init| && init[i].request == request && init[i].field == field;
        assert os[i] == init[i];
      }
      if exists i :: 0 <= i < |os| && os[i].request == request && os[i].field == field {
        var i :| 0 <= i < |os| && os[i].request == request && os[i].field == field;
        if i < |os| - 1 {
          assert init[i] == os[i];
        }
      }
    }
  }

  /** Every request of the map was named by some override. */
  lemma {:induction false} AccumulateRequests(os: seq<Override>)
    ensures Accumulate(os).Keys == set i | 0 <= i < |os| :: os[i].request
  {
    if os != [] {
      var init := os[..|os| - 1];
      AccumulateRequests(init);
      assert forall i :: 0 <= i < |init| ==> init[i] == os[i];
      var s := set i | 0 <= i < |os| :: os[i].request;
      var t := set i | 0 <= i < |init| :: init[i].request;
      assert s == t + {os[|os| - 1].request};
    }
  }

  /** An override that no later one overwrites determines the field's value. */
  lemma {:induction false} AccumulateLastWins(os: seq<Override>, i: nat)
    requires i < |os|
    requires forall j :: i < j < |os| ==> os[j].request != os[i].request || os[j].field != os[i].field
    ensures os[i].request in Accumulate(os)
    ensures os[i].field in Accumulate(os)[os[i].request]
    ensures Accumulate(os)[os[i].request][os[i].field] == os[i].value
  {
    var init := os[..|os| - 1];
    if i < |os| - 1 {
      AccumulateLastWins(init, i);
    }
  }

  /** An undotted entry `a=v` sets the instance name of request `a` to `v`. */
  lemma UndottedEntry(a: string, v: string)
    requires '.' !in a && '=' !in a
    ensures EntryOverride(a + "=" + v) == Some(Override(a, NameField, v))
  {
    EntryValueAfterFirstEquals(a, v);
    TargetUndotted(a);
  }

  /** A dotted entry `b.f=v` with a plain field `f` sets field `f` of request `b`. */
  lemma DottedEntry(b: string, f: string, v: string)
    requires '.' !in b && '=' !in b && '.' !in f && '=' !in f
    ensures EntryOverride(b + "." + f + "=" + v) == Some(Override(b, f, v))
  {
    var key := b + "." + f;
    assert '=' !in key;
    EntryValueAfterFirstEquals(key, v);
    TargetDotted(b, f);
    SplitNone(f, '.');
  }

  /** Two comma-free entries joined by a comma split back into the two. */
  lemma TwoEntriesSplit(first: string, second: string)
    requires ',' !in first && ',' !in second
    ensures Split(first + "," + second, ',') == [first, second]
  {
    SplitAt(first + "," + second, ',', first, second);
    SplitNone(second, ',');
  }

  /** Two well-formed entries yield their two overrides, in order. */
  lemma TwoEntriesOverrides(first: string, second: string, o1: Override, o2: Override)
    requires EntryOverride(first) == Some(o1) && EntryOverride(second) == Some(o2)
    ensures ParseEntries([first, second]) == Success([o1, o2])
  {
    var entries := [first, second];
    assert entries[..0] == [];
    ParseEntriesStep(entries, 0, [], o1);
    assert [] + [o1] == [o1];
    assert entries[..1] == [first];
    ParseEntriesStep(entries, 1, [o1], o2);
    assert entries[..2] == entries;
    assert [o1] + [o2] == [o1, o2];
  }

  /** Overrides of two different requests give two separate inner maps. */
  lemma TwoOverridesAccumulate(o1: Override, o2: Override)
    requires o1.request != o2.request
    ensures Accumulate([o1, o2]) ==
            map[o1.request := map[o1.field := o1.value], o2.request := map[o2.field := o2.value]]
  {
    assert [o1][..0] == [];
    assert Accumulate([o1]) == map[o1.request := map[o1.field := o1.value]];
    assert [o1, o2][..1] == [o1];
    assert Accumulate([o1, o2]) == ApplyOverride(Accumulate([o1]), o2);
  }

  /** Two well-formed entries for different requests parse into two separate inner maps. */
  lemma TwoEntriesParse(first: string, second: string, o1: Override, o2: Override)
    requires ',' !in first && ',' !in second
    requires EntryOverride(first) == Some(o1) && EntryOverride(second) == Some(o2)
    requires o1.request != o2.request
    ensures Parse(Some(first + "," + second)) ==
            Success(map[o1.request := map[o1.field := o1.value], o2.request := map[o2.field := o2.value]])
  {
    TwoEntriesSplit(first, second);
    TwoEntriesOverrides(first, second, o1, o2);
    TwoOverridesAccumulate(o1, o2);
  }

  /** The first entry of the documented example sets the instance name of `resource_a`. */
  lemma ExampleFirstOverride()
    ensures EntryOverride("resource_a=demo_res1") == Some(Override("resource_a", NameField, "demo_res1"))
  {
    assert "resource_a=demo_res1" == "resource_a" + "=" + "demo_res1";
    assert '.' !in "resource_a" && '=' !in "resource_a";
    UndottedEntry("resource_a", "demo_res1");
  }

  /** The second entry of the documented example sets field `ip_address` of `resource_b`. */
  lemma ExampleSecondOverride()
    ensures EntryOverride("resource_b.ip_address=10.0.0.1") == Some(Override("resource_b", "ip_address", "10.0.0.1"))
  {
    assert "resource_b.ip_address=10.0.0.1" == "resource_b" + "." + "ip_address" + "=" + "10.0.0.1";
    assert '.' !in "resource_b" && '=' !in "resource_b";
    assert '.' !in "ip_address" && '=' !in "ip_address";
    DottedEntry("resource_b", "ip_address", "10.0.0.1");
  }

  /**
   * The example of the documentation, `resource_a=demo_res1,resource_b.ip_address=10.0.0.1`,
   * written as its two entries joined by a comma, parses to exactly the documented map.
   */
  lemma ParseDocumentedExample()
    ensures Parse(Some("resource_a=demo_res1" + "," + "resource_b.ip_address=10.0.0.1")) ==
            Success(map["resource_a" := map["name" := "demo_res1"],
                        "resource_b" := map["ip_address" := "10.0.0.1"]])
  {
    var first, second := "resource_a=demo_res1", "resource_b.ip_address=10.0.0.1";
    assert ',' !in first && ',' !in second;
    ExampleFirstOverride();
    ExampleSecondOverride();
    TwoEntriesParse(first, second,
                    Override("resource_a", NameField, "demo_res1"),
                    Override("resource_b", "ip_address", "10.0.0.1"));
  }

  // ---------------------------------------------------------------------
  // Rewriting the resource requests of a test tree

  /** A resource request of a test: the request name and its constraints. */
  datatype ResourceRequest = ResourceRequest(name: string, kwargs: map<string, string>)

  /** The test classes that declare resources of their own. */
  datatype LeafKind = Case | Flow | Block

  /** A test class: a suite of components, or a case, flow or block with its requests. */
  datatype TestElement =
    | Suite(components: seq<TestElement>)
    | Leaf(kind: LeafKind, resources: seq<ResourceRequest>)

  /** Names of a list of requests. */
  function NamesOf(resources: seq<ResourceRequest>): set<string>
  {
    set r | r in resources :: r.name
  }

  /** One more request adds its name. */
  lemma NamesOfSnoc(resources: seq<ResourceRequest>, r: ResourceRequest)
    ensures NamesOf(resources + [r]) == NamesOf(resources) + {r.name}
  {
    assert forall x :: x in resources + [r] <==> x in resources || x == r;
  }

  /** Names of every request declared anywhere in the tree. */
  ghost function RequestNames(t: TestElement): set<string>
    decreases t, 1
  {
    match t
    case Leaf(_, resources) => NamesOf(resources)
    case Suite(components) => NamesUpTo(t, |components|)
  }

  /** Names of the requests of the first `n` components of a suite. */
  ghost function NamesUpTo(t: TestElement, n: nat): set<string>
    requires t.Suite? && n <= |t.components|
    decreases t, 0, n
  {
    if n == 0 then {} else NamesUpTo(t, n - 1) + RequestNames(t.components[n - 1])
  }

  /** `kwargs.update(identifiers[name])` for a request named in the identifiers. */
  function UpdatedRequest(r: ResourceRequest, ids: Identifiers): ResourceRequest
  {
    if r.name in ids then r.(kwargs := r.kwargs + ids[r.name]) else r
  }

  /**
   * A request keeps its name; one named in the identifiers takes every
   * given constraint and keeps its other ones, any other request is unchanged.
   */
  lemma UpdatedRequestMeaning(r: ResourceRequest, ids: Identifiers)
    ensures var u := UpdatedRequest(r, ids);
            u.name == r.name &&
            (r.name !in ids ==> u == r) &&
            (r.name in ids ==>
               u.kwargs.Keys == r.kwargs.Keys + ids[r.name].Keys &&
               (forall k :: k in ids[r.name] ==> u.kwargs[k] == ids[r.name][k]) &&
               (forall k :: k in r.kwargs && k !in ids[r.name] ==> u.kwargs[k] == r.kwargs[k]))
  {
  }

  /** The tree after every request named in the identifiers took its constraints. */
  function Rewrite(t: TestElement, ids: Identifiers): TestElement
  {
    match t
    case Leaf(kind, resources) =>
      Leaf(kind, seq(|resources|, i requires 0 <= i < |resources| => UpdatedRequest(resources[i], ids)))
    case Suite(components) =>
      Suite(seq(|components|, i requires 0 <= i < |components| => Rewrite(components[i], ids)))
  }

  /**
   * `_update_test_resources`: updates each request named in the identifiers
   * and returns the names it updated.
   */
  method UpdateTestResources(resources: seq<ResourceRequest>, ids: Identifiers)
    returns (updated: seq<ResourceRequest>, found: set<string>)
    ensures |updated| == |resources|
    ensures forall i :: 0 <= i < |resources| ==> updated[i] == UpdatedRequest(resources[i], ids)
    ensures found == NamesOf(resources) * ids.Keys
  {
    updated := [];
    found := {};
    var i := 0;
    while i < |resources|
      invariant 0 <= i <= |resources|
      invariant |updated| == i
      invariant forall j :: 0 <= j < i ==> updated[j] == UpdatedRequest(resources[j], ids)
      invariant found == NamesOf(resources[..i]) * ids.Keys
    {
      var request := resources[i];
      assert resources[..i + 1] == resources[..i] + [request];
      NamesOfSnoc(resources[..i], request);
      if request.name in ids {
        request := request.(kwargs := request.kwargs + ids[request.name]);
        found := found + {request.name};
      }
      updated := updated + [request];
      i := i + 1;
    }
    assert resources[..i] == resources;
  }

  /**
   * `update_requests`: rewrites the requests of the whole tree and returns
   * the names, among the identifiers, of the requests it found.
   */
  method UpdateRequests(t: TestElement, ids: Identifiers) returns (u: TestElement, found: set<string>)
    ensures u == Rewrite(t, ids)
    ensures found == RequestNames(t) * ids.Keys
    decreases t
  {
    match t
    case Leaf(kind, resources) =>
      var updated;
      updated, found := UpdateTestResources(resources, ids);
      u := Leaf(kind, updated);
    case Suite(components) =>
      var rewritten: seq<TestElement> := [];
      found := {};
      var i := 0;
      while i < |components|
        invariant 0 <= i <= |components|
        invariant |rewritten| == i
        invariant forall j :: 0 <= j < i ==> rewritten[j] == Rewrite(components[j], ids)
        invariant found == NamesUpTo(t, i) * ids.Keys
      {
        var c, f := UpdateRequests(components[i], ids);
        rewritten := rewritten + [c];
        found := found + f;
        i := i + 1;
      }
      u := Suite(rewritten);
  }

  /** Rewriting keeps every request, under its name. */
  lemma {:induction false} RewriteKeepsNames(t: TestElement, ids: Identifiers)
    ensures RequestNames(Rewrite(t, ids)) == RequestNames(t)
    decreases t, 1
  {
    match t
    case Leaf(kind, resources) =>
      var rs := Rewrite(t, ids).resources;
      assert forall i :: 0 <= i < |rs| ==> rs[i].name == resources[i].name;
      assert NamesOf(rs) == NamesOf(resources) by {
        forall x | x in NamesOf(resources) ensures x in NamesOf(rs) {
          var i :| 0 <= i < |resources| && resources[i].name == x;
          assert rs[i] in rs;
        }
      }
    case Suite(components) =>
      NamesUpToKept(t, ids, |components|);
  }

  /** Rewriting keeps the names of the requests of a suite's first `n` components. */
  lemma {:induction false} NamesUpToKept(t: TestElement, ids: Identifiers, n: nat)
    requires t.Suite? && n <= |t.components|
    ensures NamesUpTo(Rewrite(t, ids), n) == NamesUpTo(t, n)
    decreases t, 0, n
  {
    if n > 0 {
      NamesUpToKept(t, ids, n - 1);
      RewriteKeepsNames(t.components[n - 1], ids);
    }
  }

  /** With no identifiers nothing changes. */
  lemma {:induction false} RewriteNoIdentifiers(t: TestElement)
    ensures Rewrite(t, map[]) == t
  {
    match t
    case Leaf(kind, resources) =>
      assert Rewrite(t, map[]).resources == resources;
    case Suite(components) =>
      forall i | 0 <= i < |components| ensures Rewrite(components[i], map[]) == components[i] {
        RewriteNoIdentifiers(components[i]);
      }
      assert Rewrite(t, map[]).components == components;
  }

  /** Applying the same identifiers twice is the same as applying them once. */
  lemma {:induction false} RewriteIdempotent(t: TestElement, ids: Identifiers)
    ensures Rewrite(Rewrite(t, ids), ids) == Rewrite(t, ids)
  {
    match t
    case Leaf(kind, resources) =>
      var once := Rewrite(t, ids).resources;
      forall i | 0 <= i < |once| ensures UpdatedRequest(once[i], ids) == once[i] {
        var r := resources[i];
        if r.name in ids {
          assert r.kwargs + ids[r.name] + ids[r.name] == r.kwargs + ids[r.name];
        }
      }
      assert Rewrite(Rewrite(t, ids), ids).resources == once;
    case Suite(components) =>
      var once := Rewrite(t, ids).components;
      forall i | 0 <= i < |components| ensures Rewrite(once[i], ids) == once[i] {
        RewriteIdempotent(components[i], ids);
      }
      assert Rewrite(Rewrite(t, ids), ids).components == once;
  }

  /** A subset of a finite set with as many elements is the whole set. */
  lemma {:induction false} SubsetSameSize<T>(a: set<T>, b: set<T>)
    requires a <= b && |a| == |b|
    ensures a == b
  {
    assert a + (b - a) == b;
    assert a * (b - a) == {};
    assert b - a == {};
  }

  /**
   * `update_resource_requests`: rewrites the tree, then raises when fewer
   * request names were found than identifiers were given, naming the missing ones.
   */
  method UpdateResourceRequests(t: TestElement, ids: Identifiers)
    returns (u: TestElement, r: Outcome<set<string>>)
    ensures u == Rewrite(t, ids)
    ensures r.Fail? <==> !(ids.Keys <= RequestNames(t))
    ensures r.Fail? ==> r.error == ids.Keys - RequestNames(t) && r.error != {}
  {
    var found;
    u, found := UpdateRequests(t, ids);
    assert |ids| == |ids.Keys|;
    if |found| != |ids| {
      assert found != ids.Keys;
      assert ids.Keys - found != {} by {
        assert found + (ids.Keys - found) == ids.Keys;
      }
      r := Fail(ids.Keys - found);
    } else {
      SubsetSameSize(found, ids.Keys);
      r := Pass;
    }
  }

  // ---------------------------------------------------------------------
  // Choosing the runner and repeating the run

  /** The plain runner, or the multiprocess runner with its number of workers. */
  datatype RunnerKind = Base | Multiprocess(workers: int)

  /** The settings a runner is created with. */
  datatype TestRunner = TestRunner(
    kind: RunnerKind,
    saveState: bool,
    runDelta: bool,
    failFast: bool,
    enableDebug: bool,
    skipInit: bool)

  /** `get_runner` raises only when debugging is asked of a multiprocess run. */
  datatype RunnerError = CannotDebugInMultiprocess

  /** The least number of times `run` runs a test. */
  const MinimumTimesToRun: int := 1

  /** `get_runner`: a multiprocess runner for a positive process count, the plain runner otherwise. */
  function GetRunner(saveState: bool, processes: Option<int>, runDelta: bool, failFast: bool,
                     enableDebug: bool, skipInit: bool): (r: Result<TestRunner, RunnerError>)
    ensures r.Failure? <==> processes.Some? && processes.value > 0 && enableDebug
    ensures r.Success? ==> (r.value.kind.Multiprocess? <==> processes.Some? && processes.value > 0)
    ensures r.Success? && r.value.kind.Multiprocess? ==> r.value.kind.workers == processes.value
    ensures r.Success? ==> r.value.enableDebug == enableDebug && r.value.saveState == saveState &&
                           r.value.runDelta == runDelta && r.value.failFast == failFast &&
                           r.value.skipInit == skipInit
  {
    if processes.Some? && processes.value > 0 then
      if enableDebug then Failure(CannotDebugInMultiprocess)
      else Success(TestRunner(Multiprocess(processes.value), saveState, runDelta, failFast, false, skipInit))
    else Success(TestRunner(Base, saveState, runDelta, failFast, enableDebug, skipInit))
  }

  /** No runner ever debugs inside worker processes. */
  lemma DebugOnlyInBaseRunner(saveState: bool, processes: Option<int>, runDelta: bool, failFast: bool,
                              enableDebug: bool, skipInit: bool)
    ensures var r := GetRunner(saveState, processes, runDelta, failFast, enableDebug, skipInit);
            r.Success? && r.value.kind.Multiprocess? ==> !r.value.enableDebug
  {
  }

  /** `max(delta_iterations, 1)`, where an absent count (Python 2 `None`) is below every number. */
  function TimesToRun(delta: Option<int>): (n: nat)
    ensures n >= MinimumTimesToRun
    ensures delta.Some? && delta.value >= MinimumTimesToRun ==> n == delta.value
    ensures delta.None? || delta.value < MinimumTimesToRun ==> n == MinimumTimesToRun
  {
    if delta.Some? && delta.value > MinimumTimesToRun then delta.value else MinimumTimesToRun
  }

  /** `bool(delta_iterations)`: delta mode is on for any count but absent or zero. */
  function DeltaMode(delta: Option<int>): bool
  {
    delta.Some? && delta.value != 0
  }

  /**
   * `run`: creates the runner once, then runs the test `max(delta, 1)` times,
   * collecting the run data of every iteration in order. Running a test is
   * the runner's business and is given as `execute(runner, iteration)`.
   */
  method Run<D>(processes: Option<int>, delta: Option<int>, saveState: bool, failFast: bool,
                enableDebug: bool, skipInit: bool, execute: (TestRunner, nat) -> D)
    returns (r: Result<seq<D>, RunnerError>)
    ensures r.Failure? <==> processes.Some? && processes.value > 0 && enableDebug
    ensures r.Success? ==>
              var runner := GetRunner(saveState, processes, DeltaMode(delta), failFast, enableDebug, skipInit).value;
              (runner.runDelta <==> delta.Some? && delta.value != 0) &&
              |r.value| == TimesToRun(delta) &&
              forall i :: 0 <= i < |r.value| ==> r.value[i] == execute(runner, i)
  {
    var times := TimesToRun(delta);
    var runner := GetRunner(saveState, processes, DeltaMode(delta), failFast, enableDebug, skipInit);
    if runner.Failure? {
      return Failure(runner.error);
    }
    var runs: seq<D> := [];
    var i := 0;
    while i < times
      invariant 0 <= i <= times
      invariant |runs| == i
      invariant forall j :: 0 <= j < i ==> runs[j] == execute(runner.value, j)
    {
      runs := runs + [execute(runner.value, i)];
      i := i + 1;
    }
    r := Success(runs);
  }

  /**
   * The three documented uses of `delta_iterations`: 0 runs normally once,
   * 1 runs the delta tests once, and more runs them that many times.
   */
  lemma DeltaIterationsCases(d: int)
    requires d >= 0
    ensures d == 0 ==> !DeltaMode(Some(d)) && TimesToRun(Some(d)) == 1
    ensures d == 1 ==> DeltaMode(Some(d)) && TimesToRun(Some(d)) == 1
    ensures d > 1 ==> DeltaMode(Some(d)) && TimesToRun(Some(d)) == d
  {
  }
}
