/** Configuration lookup for shared extensions (lib/data/dal.js).
    The JSON configuration file is loaded by the platform; this model takes
    its `sharedExtensions` list already parsed: a list of objects, each keyed
    by extension name. */
module Dal {
  import opened Wrappers

  /** One extension's entry in the configuration. A missing `stations` or
      `trunks` property is `None`. Any list, even an empty one, is `Some`:
      JavaScript arrays are truthy, so only absence is rejected. */
  datatype ExtConfig = ExtConfig(stations: Option<seq<string>>, trunks: Option<seq<string>>)

  /** A resolved extension: its name and its ordered station and trunk lists. */
  datatype SharedExtension = SharedExtension(name: string, stations: seq<string>, trunks: seq<string>)

  /** What `getData` hands back: the extension under the key `extension`. */
  datatype Data = Data(extension: SharedExtension)

  /** The `CustomError` thrown by `getSharedExtension`. */
  datatype Error = InvalidExtension(message: string)

  function InvalidExtensionFor(name: string): Error
  {
    InvalidExtension("Invalid specified extension: " + name)
  }

  /** The index of the first entry at or after `from` that has the key `name`. */
  function FirstMatchFrom(entries: seq<map<string, ExtConfig>>, name: string, from: nat): (r: Option<nat>)
    requires from <= |entries|
    decreases |entries| - from
    ensures r.Some? ==> from <= r.value < |entries| && name in entries[r.value]
    ensures r.Some? ==> forall j :: from <= j < r.value ==> name !in entries[j]
    ensures r.None? <==> forall j :: from <= j < |entries| ==> name !in entries[j]
  {
    if from == |entries| then None
    else if name in entries[from] then Some(from)
    else FirstMatchFrom(entries, name, from + 1)
  }

  /** What `getSharedExtension` returns for `name`, or the error it throws. */
  function Resolve(entries: seq<map<string, ExtConfig>>, name: string): (r: Result<SharedExtension, Error>)
    ensures r.Success? ==> r.value.name == name
    ensures r.Failure? ==> r.error == InvalidExtensionFor(name)
  {
    match FirstMatchFrom(entries, name, 0)
    case None => Failure(InvalidExtensionFor(name))
    case Some(i) =>
      var e := entries[i][name];
      if e.stations.Some? && e.trunks.Some? then
        Success(SharedExtension(name, e.stations.value, e.trunks.value))
      else
        Failure(InvalidExtensionFor(name))
  }

  /** Scans the entries in order and stops at the first one keyed by `name`;
      its `stations` and `trunks` are copied into the result. The object is
      filled field by field, so a missing field stays absent and is caught by
      the final check. */
  method GetSharedExtension(entries: seq<map<string, ExtConfig>>, name: string)
    returns (r: Result<SharedExtension, Error>)
    ensures r == Resolve(entries, name)
  {
    var stations: Option<seq<string>> := None;
    var trunks: Option<seq<string>> := None;
    var index := 0;
    while index < |entries|
      invariant 0 <= index <= |entries|
      invariant FirstMatchFrom(entries, name, 0) == FirstMatchFrom(entries, name, index)
      invariant stations.None? && trunks.None?
    {
      var extension := entries[index];
      if name in extension {
        stations := extension[name].stations;
        trunks := extension[name].trunks;
        break;
      }
      index := index + 1;
    }
    if trunks.None? || stations.None? {
      return Failure(InvalidExtensionFor(name));
    }
    return Success(SharedExtension(name, stations.value, trunks.value));
  }

  /** Wraps the resolved extension as `data.extension`. The channel is not
      consulted; the configuration file is replaced by its parsed entries. */
  method GetData(entries: seq<map<string, ExtConfig>>, channelId: string, extensionName: string)
    returns (r: Result<Data, Error>)
    ensures match Resolve(entries, extensionName)
            case Success(ext) => r == Success(Data(ext))
            case Failure(e) => r == Failure(e)
  {
    var sharedExtension := GetSharedExtension(entries, extensionName);
    match sharedExtension
    case Failure(e) => r := Failure(e);
    case Success(ext) => r := Success(Data(ext));
  }

  /** The entry used is the first one keyed by `name`: when entry `i` is it,
      the result is built from that entry alone, and it succeeds exactly when
      the entry has both lists (empty lists included). */
  lemma ResolveFirstMatch(entries: seq<map<string, ExtConfig>>, name: string, i: nat)
    requires i < |entries| && name in entries[i]
    requires forall j :: 0 <= j < i ==> name !in entries[j]
    ensures var e := entries[i][name];
            Resolve(entries, name) ==
              if e.stations.Some? && e.trunks.Some?
              then Success(SharedExtension(name, e.stations.value, e.trunks.value))
              else Failure(InvalidExtensionFor(name))
  {
  }

  /** Without any entry keyed by `name`, the lookup throws `InvalidExtension`. */
  lemma ResolveMissing(entries: seq<map<string, ExtConfig>>, name: string)
    requires forall j :: 0 <= j < |entries| ==> name !in entries[j]
    ensures Resolve(entries, name) == Failure(InvalidExtensionFor(name))
  {
  }

  lemma {:induction false} FirstMatchIgnoresLater(entries: seq<map<string, ExtConfig>>, more: seq<map<string, ExtConfig>>,
                                                  name: string, from: nat)
    requires from <= |entries|
    requires FirstMatchFrom(entries, name, from).Some?
    ensures FirstMatchFrom(entries + more, name, from) == FirstMatchFrom(entries, name, from)
    decreases |entries| - from
  {
    assert (entries + more)[from] == entries[from];
    if name !in entries[from] {
      FirstMatchIgnoresLater(entries, more, name, from + 1);
    }
  }

  /** Entries after the first one keyed by `name` are never consulted:
      appending more entries, even with the same key, changes nothing. */
  lemma ResolveIgnoresLater(entries: seq<map<string, ExtConfig>>, more: seq<map<string, ExtConfig>>,
                            name: string, i: nat)
    requires i < |entries| && name in entries[i]
    ensures Resolve(entries + more, name) == Resolve(entries, name)
  {
    assert FirstMatchFrom(entries, name, 0).Some? by {
      assert name in entries[i];
    }
    FirstMatchIgnoresLater(entries, more, name, 0);
    var k := FirstMatchFrom(entries, name, 0).value;
    assert (entries + more)[k] == entries[k];
  }
}
