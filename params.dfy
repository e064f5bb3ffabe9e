/**
 * The request data the client's commands build from their arguments before
 * dispatching: the torrent-list filter rename, the option mapping of the two
 * "add torrent" commands, the delete flag and the file-priority validation.
 */
module Params {
  import opened Wrappers
  import opened Strings
  import opened Infohash
  import opened Http

  /** The legacy keyword `status` is sent as `filter`; every other name is kept. */
  function RenameFilter(name: string): (sent: string)
    ensures sent != "status"
    ensures name != "status" ==> sent == name
  {
    if name == "status" then "filter" else name
  }

  /** The query parameters for a list of keyword filters, later keywords overriding earlier ones. */
  function FilterParams(filters: seq<(string, Arg)>): (params: Form)
    ensures "status" !in params
    ensures |params| <= |filters|
  {
    if filters == [] then map[]
    else
      var last := filters[|filters| - 1];
      FilterParams(filters[..|filters| - 1])[RenameFilter(last.0) := last.1]
  }

  /** The parameter names sent are exactly the renamed keyword names; `status` is never sent. */
  lemma {:induction false} FilterParamsKeys(filters: seq<(string, Arg)>)
    ensures FilterParams(filters).Keys == set i | 0 <= i < |filters| :: RenameFilter(filters[i].0)
    ensures "status" !in FilterParams(filters)
  {
    if filters != [] {
      var init := filters[..|filters| - 1];
      FilterParamsKeys(init);
      assert forall i :: 0 <= i < |init| ==> init[i] == filters[i];
      var s := set i | 0 <= i < |filters| :: RenameFilter(filters[i].0);
      assert RenameFilter(filters[|filters| - 1].0) in s;
    }
  }

  /**
   * Each parameter carries the value of the last keyword that is sent under its name;
   * with Python's distinct keyword names that is the keyword's own value, except that
   * `filter` takes whichever of `status` and `filter` came last.
   */
  lemma {:induction false} FilterParamsValues(filters: seq<(string, Arg)>, i: nat)
    requires i < |filters|
    requires forall j :: i < j < |filters| ==> RenameFilter(filters[j].0) != RenameFilter(filters[i].0)
    ensures RenameFilter(filters[i].0) in FilterParams(filters)
    ensures FilterParams(filters)[RenameFilter(filters[i].0)] == filters[i].1
  {
    if i < |filters| - 1 {
      var init := filters[..|filters| - 1];
      assert forall j :: 0 <= j < |init| ==> init[j] == filters[j];
      FilterParamsValues(init, i);
    }
  }

  /** `torrents`: fills the parameter dictionary one keyword at a time. */
  method TorrentsParams(filters: seq<(string, Arg)>) returns (params: Form)
    ensures params == FilterParams(filters)
  {
    params := map[];
    for k := 0 to |filters|
      invariant params == FilterParams(filters[..k])
    {
      assert filters[..k + 1][..k] == filters[..k];
      var (name, value) := filters[k];
      params := params[RenameFilter(name) := value];
    }
    assert filters[..|filters|] == filters;
  }

  /** What `download_from_link` is given as `link`: one URL or a list of them. */
  datatype Links = Link(url: string) | LinkList(urls: seq<string>)

  /** The `urls` field: the links one per line for a list, the link itself otherwise. */
  function UrlsField(link: Links): string
  {
    match link
    case LinkList(us) => Join(us, '\n')
    case Link(u) => u
  }

  /** Whether the legacy `save_path` option is copied to `savepath`. */
  predicate CopiesSavePath(kwargs: Form)
  {
    Truthy(GetArg(kwargs, "save_path")) && !Truthy(GetArg(kwargs, "savepath"))
  }

  /** The form `download_from_link` posts. */
  function LinkOptions(link: Links, kwargs: Form): (options: Form)
    ensures options.Keys == kwargs.Keys + {"urls"} + (if CopiesSavePath(kwargs) then {"savepath"} else {})
    ensures options["urls"] == Str(UrlsField(link))
    ensures forall k :: k in kwargs && k != "urls" && k != "savepath" ==> options[k] == kwargs[k]
    ensures CopiesSavePath(kwargs) ==> options["savepath"] == kwargs["save_path"]
    ensures !CopiesSavePath(kwargs) && "savepath" in kwargs ==> options["savepath"] == kwargs["savepath"]
  {
    var renamed := if CopiesSavePath(kwargs) then kwargs["savepath" := kwargs["save_path"]] else kwargs;
    renamed["urls" := Str(UrlsField(link))]
  }

  /** Mapping the options a second time changes nothing. */
  lemma LinkOptionsIdempotent(link: Links, kwargs: Form)
    ensures LinkOptions(link, LinkOptions(link, kwargs)) == LinkOptions(link, kwargs)
  {
    var once := LinkOptions(link, kwargs);
    assert !CopiesSavePath(once);
  }

  /** For a non-empty list of links without line breaks the service can split `urls` back into the list. */
  lemma LinkListRoundTrip(urls: seq<string>, kwargs: Form)
    requires |urls| >= 1
    requires forall i :: 0 <= i < |urls| ==> '\n' !in urls[i]
    ensures LinkOptions(LinkList(urls), kwargs)["urls"].Str?
    ensures Split(LinkOptions(LinkList(urls), kwargs)["urls"].s, '\n') == urls
  {
    SplitJoin(urls, '\n');
  }

  /** What `download_from_file` is given: one open file or a list of them. */
  datatype Files = OneFile(file: nat) | FileList(files: seq<nat>)

  /** The multipart name of the `i`-th file of a list. */
  function FileField(i: nat): (name: string)
    ensures "torrents" < name
  {
    "torrents" + NatToString(i)
  }

  /** Distinct positions get distinct names, so no file of a list overwrites another. */
  lemma FileFieldInjective(i: nat, j: nat)
    requires i != j
    ensures FileField(i) != FileField(j)
  {
    NatToStringInjective(i, j);
    assert FileField(i)[8..] == NatToString(i);
    assert FileField(j)[8..] == NatToString(j);
  }

  /** The upload parts for `files`: `torrents` for one file, `torrents0`, `torrents1`, ... for a list. */
  ghost predicate UploadsOf(files: Files, parts: map<string, Upload>)
  {
    match files
    case OneFile(f) => parts == map["torrents" := FileBuffer(f)]
    case FileList(fs) =>
      && parts.Keys == (set i | 0 <= i < |fs| :: FileField(i))
      && forall i :: 0 <= i < |fs| ==> parts[FileField(i)] == FileBuffer(fs[i])
  }

  /** `download_from_file`: names each file to upload, one at a time for a list. */
  method TorrentFiles(files: Files) returns (parts: map<string, Upload>)
    ensures UploadsOf(files, parts)
    ensures files.FileList? ==> |parts| == |files.files|
  {
    match files
    case OneFile(f) =>
      parts := map["torrents" := FileBuffer(f)];
    case FileList(fs) =>
      parts := map[];
      for i := 0 to |fs|
        invariant parts.Keys == set j | 0 <= j < i :: FileField(j)
        invariant forall j :: 0 <= j < i ==> parts[FileField(j)] == FileBuffer(fs[j])
      {
        forall j | 0 <= j < i ensures FileField(j) != FileField(i) {
          FileFieldInjective(j, i);
        }
        parts := parts[FileField(i) := FileBuffer(fs[i])];
      }
      FileFieldsCount(|fs|);
  }

  /** The first `n` file names are `n` distinct names. */
  lemma {:induction false} FileFieldsCount(n: nat)
    ensures |set i | 0 <= i < n :: FileField(i)| == n
  {
    if n > 0 {
      FileFieldsCount(n - 1);
      var before := set i | 0 <= i < n - 1 :: FileField(i);
      var after := set i | 0 <= i < n :: FileField(i);
      assert after == before + {FileField(n - 1)};
      forall j | 0 <= j < n - 1 ensures FileField(j) != FileField(n - 1) {
        FileFieldInjective(j, n - 1);
      }
    }
  }

  /** The form `download_from_file` posts: a truthy `save_path` overrides `savepath`. */
  function FileOptions(kwargs: Form): (data: Form)
    ensures data.Keys == kwargs.Keys + (if Truthy(GetArg(kwargs, "save_path")) then {"savepath"} else {})
    ensures forall k :: k in kwargs && k != "savepath" ==> data[k] == kwargs[k]
    ensures Truthy(GetArg(kwargs, "save_path")) ==> data["savepath"] == kwargs["save_path"]
    ensures !Truthy(GetArg(kwargs, "save_path")) && "savepath" in kwargs ==> data["savepath"] == kwargs["savepath"]
  {
    if Truthy(GetArg(kwargs, "save_path")) then kwargs["savepath" := kwargs["save_path"]] else kwargs
  }

  /**
   * The two "add torrent" commands disagree when both `save_path` and `savepath` are set:
   * the link form keeps `savepath`, the file form overwrites it with `save_path`.
   */
  lemma SavePathPrecedence(link: Links, kwargs: Form)
    requires Truthy(GetArg(kwargs, "save_path")) && Truthy(GetArg(kwargs, "savepath"))
    ensures LinkOptions(link, kwargs)["savepath"] == kwargs["savepath"]
    ensures FileOptions(kwargs)["savepath"] == kwargs["save_path"]
  {
  }

  /** `json.dumps` of a boolean. */
  function JsonBool(b: bool): (s: string)
    ensures JsonBoolValue(s) == Some(b)
  {
    if b then "true" else "false"
  }

  /** The form `_delete` posts. */
  function DeleteForm(target: Target, deleteFiles: bool): (data: Form)
    ensures data.Keys == {"hashes", "deleteFiles"}
    ensures data["hashes"] == Str(ProcessInfohashList(target))
    ensures data["deleteFiles"] == Str(JsonBool(deleteFiles))
  {
    map["hashes" := Str(ProcessInfohashList(target)), "deleteFiles" := Str(JsonBool(deleteFiles))]
  }

  /** How the service reads a JSON boolean. */
  function JsonBoolValue(s: string): Option<bool>
  {
    if s == "true" then Some(true) else if s == "false" then Some(false) else None
  }

  /** The service reads back the flag that was encoded, whatever the target. */
  lemma DeleteFlagRoundTrip(target: Target, deleteFiles: bool)
    ensures DeleteForm(target, deleteFiles)["deleteFiles"].Str?
    ensures JsonBoolValue(DeleteForm(target, deleteFiles)["deleteFiles"].s) == Some(deleteFiles)
  {
  }

  /** The priorities the service accepts. */
  const FilePriorities: set<int> := {0, 1, 2, 4, 6, 7}

  /** `priority in [0, 1, 2, 4, 6, 7]` under Python equality, where False == 0 and True == 1. */
  predicate IsKnownPriority(priority: Arg)
  {
    match priority
    case Int(i) => i in FilePriorities
    case Bool(_) => true
    case _ => false
  }

  /** `isinstance(file_id, int)`, which bool values pass too. */
  predicate IsPythonInt(a: Arg)
  {
    a.Int? || a.Bool?
  }

  /** `set_file_priority`: validate, then the form to post. */
  function FilePriorityForm(hash: string, fileId: Arg, priority: Arg): (r: Result<Form, Error>)
    ensures r.Success? <==> IsKnownPriority(priority) && IsPythonInt(fileId)
    ensures !IsKnownPriority(priority) ==> r == Failure(InvalidPriority)
    ensures IsKnownPriority(priority) && !IsPythonInt(fileId) ==> r == Failure(FileIdNotInt)
    ensures r.Success? ==> r.value.Keys == {"hash", "id", "priority"}
    ensures r.Success? ==> r.value["hash"] == Str(Lower(hash)) && r.value["id"] == fileId && r.value["priority"] == priority
  {
    if !IsKnownPriority(priority) then Failure(InvalidPriority)
    else if !IsPythonInt(fileId) then Failure(FileIdNotInt)
    else Success(map["hash" := Str(Lower(hash)), "id" := fileId, "priority" := priority])
  }

  /** The integer priorities accepted are exactly 0, 1, 2, 4, 6 and 7. */
  lemma AcceptedIntPriorities(hash: string, fileId: int, p: int)
    ensures FilePriorityForm(hash, Int(fileId), Int(p)).Success? <==> p in FilePriorities
    ensures p == 3 || p == 5 || p < 0 || p > 7 ==> FilePriorityForm(hash, Int(fileId), Int(p)) == Failure(InvalidPriority)
  {
  }
}
