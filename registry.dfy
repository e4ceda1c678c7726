/** What `MyClient._load_tools` builds from the service's listings: the
    translated tool catalogue and the map from resource pseudo-tool names to
    resource uris. */
module Registry {
  import opened Wrappers
  import opened Json
  import opened Schema

  /** How many tools from the front of the listing translate before the
      first one whose translation raises. */
  function GoodPrefix(ts: seq<Tool>): (n: nat)
    ensures n <= |ts|
    ensures forall i :: 0 <= i < n ==> Convert(ts[i]).Success?
    ensures n < |ts| ==> Convert(ts[n]).Failure?
  {
    if ts == [] || Convert(ts[0]).Failure? then 0 else 1 + GoodPrefix(ts[1..])
  }

  /** The translated schemas of the first `n` tools of a listing, all of
      which translate, in listing order. */
  function Translated(ts: seq<Tool>, n: nat): seq<FunctionTool>
    requires n <= |ts|
    requires forall i :: 0 <= i < n ==> Convert(ts[i]).Success?
  {
    seq(n, i requires 0 <= i < n => Convert(ts[i]).value)
  }

  /** A dict built from key/value pairs in order: a later pair overwrites
      an earlier one with the same key. */
  function MapOf(pairs: seq<(string, string)>): map<string, string>
  {
    if pairs == [] then map[]
    else MapOf(pairs[..|pairs| - 1])[pairs[|pairs| - 1].0 := pairs[|pairs| - 1].1]
  }

  lemma {:induction false} MapOfKeys(pairs: seq<(string, string)>)
    ensures forall i :: 0 <= i < |pairs| ==> pairs[i].0 in MapOf(pairs)
    ensures forall k :: k in MapOf(pairs) ==> exists i :: 0 <= i < |pairs| && pairs[i] == (k, MapOf(pairs)[k])
  {
    if pairs != [] {
      var init := pairs[..|pairs| - 1];
      MapOfKeys(init);
      var m := MapOf(pairs);
      forall i | 0 <= i < |pairs| - 1 ensures pairs[i].0 in m {
        assert pairs[i] == init[i];
      }
      forall k | k in m ensures exists i :: 0 <= i < |pairs| && pairs[i] == (k, m[k]) {
        if k != pairs[|pairs| - 1].0 {
          var i :| 0 <= i < |init| && init[i] == (k, MapOf(init)[k]);
          assert pairs[i] == init[i];
        } else {
          assert pairs[|pairs| - 1] == (k, m[k]);
        }
      }
    }
  }

  lemma {:induction false} MapOfLastWins(pairs: seq<(string, string)>, i: nat)
    requires i < |pairs|
    requires forall j :: i < j < |pairs| ==> pairs[j].0 != pairs[i].0
    ensures pairs[i].0 in MapOf(pairs) && MapOf(pairs)[pairs[i].0] == pairs[i].1
  {
    var init := pairs[..|pairs| - 1];
    if i < |pairs| - 1 {
      assert pairs[i] == init[i];
      forall j | i < j < |init| ensures init[j].0 != init[i].0 {
        assert init[j] == pairs[j];
      }
      MapOfLastWins(init, i);
    }
  }

  function Entries(rs: seq<Resource>): seq<(string, string)>
  {
    seq(|rs|, i requires 0 <= i < |rs| => (SnakeCase(rs[i].name), rs[i].uri))
  }

  /** The dict comprehension `{to_snake_case(res.name): str(res.uri) for res
      in resources}`. */
  function ResourceMap(rs: seq<Resource>): map<string, string>
  {
    MapOf(Entries(rs))
  }

  /** The map's keys are exactly the snake-cased resource names, each
      mapped to the uri of a resource listed under that name. */
  lemma ResourceMapKeys(rs: seq<Resource>)
    ensures forall i :: 0 <= i < |rs| ==> SnakeCase(rs[i].name) in ResourceMap(rs)
    ensures forall k :: k in ResourceMap(rs) ==>
      exists i :: 0 <= i < |rs| && SnakeCase(rs[i].name) == k && ResourceMap(rs)[k] == rs[i].uri
  {
    var e := Entries(rs);
    MapOfKeys(e);
    forall i | 0 <= i < |rs| ensures SnakeCase(rs[i].name) in ResourceMap(rs) {
      assert e[i].0 == SnakeCase(rs[i].name);
    }
    forall k | k in ResourceMap(rs)
      ensures exists i :: 0 <= i < |rs| && SnakeCase(rs[i].name) == k && ResourceMap(rs)[k] == rs[i].uri
    {
      var i :| 0 <= i < |e| && e[i] == (k, MapOf(e)[k]);
      assert SnakeCase(rs[i].name) == k;
    }
  }

  /** A resource that no later resource shares its snake-cased name with
      is the one the map sends that name to: the last listing wins. */
  lemma ResourceMapLastWins(rs: seq<Resource>, i: nat)
    requires i < |rs|
    requires forall j :: i < j < |rs| ==> SnakeCase(rs[j].name) != SnakeCase(rs[i].name)
    ensures SnakeCase(rs[i].name) in ResourceMap(rs)
    ensures ResourceMap(rs)[SnakeCase(rs[i].name)] == rs[i].uri
  {
    var e := Entries(rs);
    forall j | i < j < |e| ensures e[j].0 != e[i].0 {
      assert e[j].0 == SnakeCase(rs[j].name);
    }
    MapOfLastWins(e, i);
  }

  /** A single resource maps its snake-cased name to its uri. */
  lemma ResourceMapSingle(r: Resource)
    ensures ResourceMap([r]) == map[SnakeCase(r.name) := r.uri]
  {
    var e := Entries([r]);
    assert e == [(SnakeCase(r.name), r.uri)];
    assert e[..0] == [];
    assert MapOf(e) == MapOf(e[..0])[SnakeCase(r.name) := r.uri];
  }

  /** Every resource pseudo-tool is served from the map, and every map entry
      is the name of a pseudo-tool: the tool list and the map agree. */
  lemma PseudoToolsMapped(rs: seq<Resource>)
    ensures forall i :: 0 <= i < |ResourceTools(rs)| ==> ResourceTools(rs)[i].name in ResourceMap(rs)
    ensures forall k :: k in ResourceMap(rs) ==> exists i :: 0 <= i < |ResourceTools(rs)| && ResourceTools(rs)[i].name == k
  {
    ResourceMapKeys(rs);
    ResourceToolsShape(rs);
    forall k | k in ResourceMap(rs)
      ensures exists i :: 0 <= i < |ResourceTools(rs)| && ResourceTools(rs)[i].name == k
    {
      var i :| 0 <= i < |rs| && SnakeCase(rs[i].name) == k && ResourceMap(rs)[k] == rs[i].uri;
      assert ResourceTools(rs)[i].name == k;
    }
  }

  /** The translated catalogue has one schema per listed tool, in order,
      each under the tool's own name and description, with no "title" at
      its parameters root. */
  lemma TranslatedShape(ts: seq<Tool>, n: nat)
    requires n <= |ts|
    requires forall i :: 0 <= i < n ==> Convert(ts[i]).Success?
    ensures |Translated(ts, n)| == n
    ensures forall i :: 0 <= i < n ==>
      && Translated(ts, n)[i].name == ts[i].name
      && Translated(ts, n)[i].description == ts[i].description
      && Get(Translated(ts, n)[i].parameters, "title") == None
  {
    forall i | 0 <= i < n
      ensures Translated(ts, n)[i].name == ts[i].name
      ensures Translated(ts, n)[i].description == ts[i].description
      ensures Get(Translated(ts, n)[i].parameters, "title") == None
    {
      ConvertRoot(ts[i], Convert(ts[i]).value);
    }
  }
}
