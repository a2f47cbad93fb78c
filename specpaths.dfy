/**
 * The endpoint summary of the Alpaca OpenAPI description: each path is
 * classified by device type (`management`, `common` for the
 * `/{device_type}/...` templates, the first path segment for a device
 * route, `unknown` otherwise) and every operation of every path is listed
 * under its path's type with its upper-cased method and its summary.
 */
module SpecPaths {
  import opened Wrappers
  import opened Text

  /** One operation of a path item: its HTTP method (the `verb`) as written, and its summary if it has one. */
  datatype Operation = Operation(verb: string, summary: Option<string>)

  /** One entry of the description's `paths`: the path and its operations in their order. */
  datatype PathItem = PathItem(path: string, operations: seq<Operation>)

  /** One listed endpoint. */
  datatype Endpoint = Endpoint(verb: string, path: string, summary: string)

  const NoSummary := "No summary provided."

  /** `get_device_type_from_path`. */
  function DeviceTypeFromPath(path: string): (r: string)
    ensures r != [] && '/' !in r
  {
    if !StartsWith(path, "/") then "unknown"
    else
      var parts := Split(Strip(path, '/'), '/');
      if parts[0] == "management" then "management"
      else if parts[0] == "{device_type}" then "common"
      else if |parts| >= 2 then
        assert Strip(path, '/') != [];
        SplitFirstNonEmpty(Strip(path, '/'), '/');
        parts[0]
      else "unknown"
  }

  /** The first piece of a split is empty only when the string starts with the separator. */
  lemma SplitFirstNonEmpty(s: string, sep: char)
    requires s != [] && s[0] != sep
    ensures Split(s, sep)[0] != []
  {
    if sep in s {
      var i := FirstIndex(s, sep);
      assert i > 0;
    }
  }

  /** A path that does not start with a slash is of unknown type. */
  lemma UnrootedIsUnknown(path: string)
    requires !StartsWith(path, "/")
    ensures DeviceTypeFromPath(path) == "unknown"
  {
  }

  /** A path of one segment, or none, is of unknown type. */
  lemma ShortPathsAreUnknown()
    ensures DeviceTypeFromPath("/") == "unknown"
    ensures DeviceTypeFromPath("/camera") == "unknown"
  {
    assert LStrip("/", '/') == [];
    assert Split([], '/') == [[]];
    var camera := "camera";
    LStripOne(camera, '/');
    assert "/camera" == ['/'] + camera;
    assert RStrip(camera, '/') == camera;
    assert '/' !in camera;
    assert Split(camera, '/') == [camera];
  }

  /**
   * A path `/<first>/<rest>` whose rest holds more than slashes is of the
   * type its first segment names: `management`, `common` for the
   * `{device_type}` template, otherwise the segment itself.
   */
  lemma FirstSegmentDecides(first: string, rest: string, k: nat)
    requires first != [] && '/' !in first
    requires k < |rest| && rest[k] != '/'
    ensures DeviceTypeFromPath("/" + first + "/" + rest) ==
      if first == "management" then "management"
      else if first == "{device_type}" then "common"
      else first
  {
    var path := "/" + first + "/" + rest;
    var tail := first + "/" + rest;
    assert path == ['/'] + tail;
    LStripOne(tail, '/');
    RStripKeepsFront(first + "/", rest, '/', k);
    var stripped := first + "/" + RStrip(rest, '/');
    assert Strip(path, '/') == stripped;
    assert stripped == first + ['/'] + RStrip(rest, '/');
    SplitAt(first, '/', RStrip(rest, '/'));
  }

  /** The endpoints one path item contributes, in the order of its operations. */
  function Entries(path: string, ops: seq<Operation>): (es: seq<Endpoint>)
    ensures |es| == |ops|
    decreases |ops|
  {
    if ops == [] then []
    else
      var op := ops[|ops| - 1];
      Entries(path, ops[..|ops| - 1]) + [Endpoint(Upper(op.verb), path, op.summary.GetOr(NoSummary))]
  }

  /** Every operation of every path, in encounter order. */
  function Flattened(items: seq<PathItem>): seq<Endpoint>
    decreases |items|
  {
    if items == [] then []
    else
      var item := items[|items| - 1];
      Flattened(items[..|items| - 1]) + Entries(item.path, item.operations)
  }

  /** The type an endpoint is grouped under. */
  function TypeOf(e: Endpoint): string
  {
    DeviceTypeFromPath(e.path)
  }

  /** One endpoint appended to its type's list, the list created when it is the first of its type. */
  function AddEndpoint(groups: map<string, seq<Endpoint>>, e: Endpoint): map<string, seq<Endpoint>>
  {
    var t := TypeOf(e);
    groups[t := (if t in groups then groups[t] else []) + [e]]
  }

  /** The groups after the endpoints, taken in order: no group is empty. */
  function GroupAll(es: seq<Endpoint>): (r: map<string, seq<Endpoint>>)
    ensures forall t :: t in r ==> r[t] != []
    decreases |es|
  {
    if es == [] then map[] else AddEndpoint(GroupAll(es[..|es| - 1]), es[|es| - 1])
  }

  /** The endpoints of type `t`, in their order. */
  function Select(es: seq<Endpoint>, t: string): (r: seq<Endpoint>)
    ensures forall e :: e in r <==> e in es && TypeOf(e) == t
    decreases |es|
  {
    if es == [] then []
    else
      var e := es[|es| - 1];
      assert es == es[..|es| - 1] + [e];
      Select(es[..|es| - 1], t) + (if TypeOf(e) == t then [e] else [])
  }

  /** The endpoints added one by one to the groups. */
  function AddAll(groups: map<string, seq<Endpoint>>, es: seq<Endpoint>): map<string, seq<Endpoint>>
    decreases |es|
  {
    if es == [] then groups else AddEndpoint(AddAll(groups, es[..|es| - 1]), es[|es| - 1])
  }

  /** Grouping a longer list is grouping its front, then adding the rest. */
  lemma {:induction false} GroupAllAppend(xs: seq<Endpoint>, ys: seq<Endpoint>)
    ensures GroupAll(xs + ys) == AddAll(GroupAll(xs), ys)
    decreases |ys|
  {
    if ys == [] {
      assert xs + ys == xs;
    } else {
      var init := ys[..|ys| - 1];
      GroupAllAppend(xs, init);
      assert (xs + ys)[..|xs + ys| - 1] == xs + init;
    }
  }

  /**
   * The grouping loop of `analyze_api_spec`: nothing when the description
   * has no paths, otherwise every operation listed under its path's type.
   */
  method AnalyzeApiSpec(paths: Option<seq<PathItem>>) returns (groups: Option<map<string, seq<Endpoint>>>)
    ensures groups.None? <==> paths.None? || paths.value == []
    ensures groups.Some? ==> groups.value == GroupAll(Flattened(paths.value))
  {
    if paths.None? || paths.value == [] {
      return None;
    }
    var items := paths.value;
    var byType: map<string, seq<Endpoint>> := map[];
    var i := 0;
    while i < |items|
      invariant 0 <= i <= |items|
      invariant byType == GroupAll(Flattened(items[..i]))
    {
      var item := items[i];
      GroupAllAppend(Flattened(items[..i]), Entries(item.path, item.operations));
      assert items[..i + 1][..i] == items[..i];
      byType := ListOperations(byType, item);
      i := i + 1;
    }
    assert items[..|items|] == items;
    groups := Some(byType);
  }

  /** The inner loop: each operation of one path item appended under the path's type. */
  method ListOperations(byType: map<string, seq<Endpoint>>, item: PathItem) returns (after: map<string, seq<Endpoint>>)
    ensures after == AddAll(byType, Entries(item.path, item.operations))
  {
    var deviceType := DeviceTypeFromPath(item.path);
    after := byType;
    var j := 0;
    while j < |item.operations|
      invariant 0 <= j <= |item.operations|
      invariant after == AddAll(byType, Entries(item.path, item.operations[..j]))
    {
      var op := item.operations[j];
      var summary := op.summary.GetOr(NoSummary);
      var e := Endpoint(Upper(op.verb), item.path, summary);
      EntriesStep(item.path, item.operations, j);
      AddAllStep(byType, Entries(item.path, item.operations[..j]), e);
      after := after[deviceType := (if deviceType in after then after[deviceType] else []) + [e]];
      j := j + 1;
    }
    assert item.operations[..|item.operations|] == item.operations;
  }

  lemma AddAllStep(groups: map<string, seq<Endpoint>>, es: seq<Endpoint>, e: Endpoint)
    ensures AddAll(groups, es + [e]) == AddEndpoint(AddAll(groups, es), e)
  {
    assert (es + [e])[..|es|] == es;
  }

  lemma EntriesStep(path: string, ops: seq<Operation>, j: nat)
    requires j < |ops|
    ensures Entries(path, ops[..j + 1]) ==
      Entries(path, ops[..j]) + [Endpoint(Upper(ops[j].verb), path, ops[j].summary.GetOr(NoSummary))]
  {
    assert ops[..j + 1][..j] == ops[..j];
  }

  /** Each type's list is exactly its endpoints in encounter order, and a type has a list only when it has endpoints. */
  lemma {:induction false} GroupsAreSelections(es: seq<Endpoint>, t: string)
    ensures t in GroupAll(es) <==> Select(es, t) != []
    ensures t in GroupAll(es) ==> GroupAll(es)[t] == Select(es, t)
    decreases |es|
  {
    if es != [] {
      GroupsAreSelections(es[..|es| - 1], t);
    }
  }

  /** Every endpoint is listed under its own type and under no other. */
  lemma EachEndpointInOneGroup(es: seq<Endpoint>, e: Endpoint, t: string)
    requires e in es
    ensures TypeOf(e) in GroupAll(es) && e in GroupAll(es)[TypeOf(e)]
    ensures t != TypeOf(e) && t in GroupAll(es) ==> e !in GroupAll(es)[t]
  {
    GroupsAreSelections(es, TypeOf(e));
    GroupsAreSelections(es, t);
  }
}
