/** Resolving the host resource (a source file) behind an issue's component key: first a
    direct lookup of the key's third ':'-separated field in the host index, and when that
    yields nothing, a linear search of every indexed resource. */
module ResourceFinder {
  import opened Common

  /** A host resource: its key, its effective key (the component key issues carry) and its
      database id, which may be null. */
  datatype Resource = Resource(key: string, effectiveKey: string, id: Option<int>)

  /** The host's SonarIndex as the finder sees it: the direct lookup of a file by its resource
      key (`getResource(File.create(key))`), and the collection of all resources in iteration
      order (`getResources()`). */
  datatype SonarIndex = SonarIndex(files: map<string, Resource>, resources: seq<Resource>)

  /** Component keys have the form org:project:resourceKey. */
  const RESOURCE_KEY_INDEX: nat := 2

  lemma {:induction false} JoinCons(a: string, rest: seq<string>, sep: string)
    requires |rest| >= 1
    ensures Join([a] + rest, sep) == a + sep + Join(rest, sep)
    decreases |rest|
  {
    if |rest| > 1 {
      var p := [a] + rest;
      assert p[..|p| - 1] == [a] + rest[..|rest| - 1];
      JoinCons(a, rest[..|rest| - 1], sep);
    }
  }

  /** Joining the fields with the separator gives back the input: Split loses nothing. */
  lemma {:induction false} SplitJoin(s: string, sep: char)
    ensures Join(Split(s, sep), [sep]) == s
    decreases |s|
  {
    var i := IndexOfChar(s, sep);
    if i == -1 {
      assert Split(s, sep) == [s];
    } else {
      var head, tail := s[..i], s[i + 1..];
      var rest := Split(tail, sep);
      assert Split(s, sep) == [head] + rest;
      SplitJoin(tail, sep);
      JoinCons(head, rest, [sep]);
      Reassemble(s, i);
    }
  }

  /** String.split drops trailing empty fields. */
  function DropTrailingEmpty(fields: seq<string>): (r: seq<string>)
    ensures |r| <= |fields| && r == fields[..|r|]
    ensures |r| > 0 ==> r[|r| - 1] != ""
    ensures forall j :: |r| <= j < |fields| ==> fields[j] == ""
  {
    if |fields| > 0 && fields[|fields| - 1] == "" then DropTrailingEmpty(fields[..|fields| - 1])
    else fields
  }

  /** String.split(String.valueOf(sep)): when the separator does not occur the input comes
      back whole, otherwise the fields without the trailing empty ones. */
  function JavaSplit(s: string, sep: char): seq<string>
  {
    if sep !in s then [s] else DropTrailingEmpty(Split(s, sep))
  }

  /** `componentKey.split(":")[2]`; an index past the end of the array throws. The field is
      the third field of the full split, and it exists exactly when some field from the third
      on is non-empty. */
  function ResourceKeyFromComponentKey(componentKey: string): (r: Result<string>)
    ensures var fields := Split(componentKey, ':');
      && (r.Ok? <==> exists j :: RESOURCE_KEY_INDEX <= j < |fields| && fields[j] != "")
      && (r.Ok? ==> r.value == fields[RESOURCE_KEY_INDEX])
      && (r.Err? ==> r.error == IndexOutOfBounds)
  {
    var fields := JavaSplit(componentKey, ':');
    if |fields| > RESOURCE_KEY_INDEX then
      assert Split(componentKey, ':')[|fields| - 1] != "";
      Ok(fields[RESOURCE_KEY_INDEX])
    else
      Err(IndexOutOfBounds)
  }

  /** For a key of the documented form org:project:resourceKey the resource key is the third
      part. */
  lemma ResourceKeyOfWellFormedKey(org: string, project: string, resourceKey: string)
    requires ':' !in org && ':' !in project && ':' !in resourceKey
    requires resourceKey != ""
    ensures ResourceKeyFromComponentKey(org + ":" + project + ":" + resourceKey) == Ok(resourceKey)
  {
    var key := org + ":" + project + ":" + resourceKey;
    assert key == org + [':'] + (project + [':'] + resourceKey);
    SplitCons(org, project + [':'] + resourceKey, ':');
    SplitCons(project, resourceKey, ':');
    assert Split(resourceKey, ':') == [resourceKey];
    var fields := Split(key, ':');
    assert fields == [org, project, resourceKey];
    assert fields[RESOURCE_KEY_INDEX] != "";
  }

  /** The direct lookup: any exception in it (a key with fewer than three fields, a resource
      missing from the index) yields null. */
  function GetResource(index: SonarIndex, componentKey: string): (r: Option<Resource>)
    ensures r.Some? <==>
      ResourceKeyFromComponentKey(componentKey).Ok? && ResourceKeyFromComponentKey(componentKey).value in index.files
    ensures r.Some? ==> r.value == index.files[ResourceKeyFromComponentKey(componentKey).value]
  {
    match ResourceKeyFromComponentKey(componentKey)
    case Err(_) => None
    case Ok(resourceKey) => Get(index.files, resourceKey)
  }

  /** A resource matches a component key when its effective key is that key and it has an id. */
  predicate Matches(componentKey: string, resource: Resource)
  {
    resource.effectiveKey == componentKey && resource.id.Some?
  }

  /** The position of the first matching resource, or -1. */
  function FirstMatch(resources: seq<Resource>, componentKey: string): (i: int)
    ensures -1 <= i < |resources|
    ensures i >= 0 ==> Matches(componentKey, resources[i])
    ensures i >= 0 ==> forall j :: 0 <= j < i ==> !Matches(componentKey, resources[j])
    ensures i == -1 <==> forall j :: 0 <= j < |resources| ==> !Matches(componentKey, resources[j])
  {
    if |resources| == 0 then -1
    else if Matches(componentKey, resources[0]) then 0
    else
      var j := FirstMatch(resources[1..], componentKey);
      if j == -1 then -1 else j + 1
  }

  /** What `find` returns, as a value: a direct hit is returned as is; otherwise the first
      matching resource of the index; otherwise ResourceNotFound. */
  function Resolve(index: SonarIndex, componentKey: string): (r: Result<Resource>)
    ensures GetResource(index, componentKey).Some? ==> r == Ok(GetResource(index, componentKey).value)
    ensures GetResource(index, componentKey).None? ==>
      && (r.Ok? <==> exists i :: 0 <= i < |index.resources| && Matches(componentKey, index.resources[i]))
      && (r.Ok? ==> exists i :: && 0 <= i < |index.resources| && index.resources[i] == r.value
                               && Matches(componentKey, r.value)
                               && forall j :: 0 <= j < i ==> !Matches(componentKey, index.resources[j]))
    ensures r.Err? ==> r.error == ResourceNotFound
  {
    match GetResource(index, componentKey)
    case Some(resource) => Ok(resource)
    case None =>
      var i := FirstMatch(index.resources, componentKey);
      if i == -1 then Err(ResourceNotFound) else Ok(index.resources[i])
  }

  /** The linear search over every resource of the index, returning the first match. */
  method SearchAllResources(index: SonarIndex, componentKey: string) returns (r: Result<Resource>)
    ensures r.Ok? ==> exists i :: && 0 <= i < |index.resources| && index.resources[i] == r.value
                                 && Matches(componentKey, r.value)
                                 && forall j :: 0 <= j < i ==> !Matches(componentKey, index.resources[j])
    ensures r.Err? ==> r.error == ResourceNotFound
    ensures r.Err? ==> forall j :: 0 <= j < |index.resources| ==> !Matches(componentKey, index.resources[j])
  {
    var resources := index.resources;
    for k := 0 to |resources|
      invariant forall j :: 0 <= j < k ==> !Matches(componentKey, resources[j])
    {
      if Matches(componentKey, resources[k]) {
        return Ok(resources[k]);
      }
    }
    return Err(ResourceNotFound);
  }

  /** `find`: the direct lookup, falling back to the full search. */
  method Find(index: SonarIndex, componentKey: string) returns (r: Result<Resource>)
    ensures r == Resolve(index, componentKey)
  {
    var resource := GetResource(index, componentKey);
    if resource.None? {
      r := SearchAllResources(index, componentKey);
      var i := FirstMatch(index.resources, componentKey);
      if r.Ok? {
        var k :| && 0 <= k < |index.resources| && index.resources[k] == r.value
                 && Matches(componentKey, r.value)
                 && forall j :: 0 <= j < k ==> !Matches(componentKey, index.resources[j]);
        assert k == i;
      }
      return;
    }
    return Ok(resource.value);
  }
}
