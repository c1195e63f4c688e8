/** The publication payload `create_payload` builds from a validated request map, and the
    file list `modify_file_request` builds for it (`publishFile.py`). Both copy values from
    the request map into a fresh dict key by key, and both delete an optional key rather
    than send it empty. */
module Payload {
  import opened Wrappers
  import opened Json

  /** The `storageLocation` part of the file template. */
  const StorageTemplate: Dict := [("url", JStr("")), ("@type", JStr("s3")), ("roleArn", JStr(""))]

  /** `file_payload`, the template every file entry starts from. */
  const FileTemplate: Dict :=
    [("fileType", JStr("file")), ("storageLocation", JObj(StorageTemplate)), ("filename", JStr("")),
     ("description", JStr("")), ("fileSizeInBytes", JInt(0))]

  /** A one-entry dict when the value is there, an empty one when it is not. */
  function OptionalField(k: string, v: Option<Json>): Dict {
    if v.Some? then [(k, v.value)] else []
  }

  lemma GetOptionalField(k: string, v: Option<Json>, k': string)
    ensures Get(OptionalField(k, v), k') == if k' == k then v else None
  {
    if v.Some? {
      assert [(k, v.value)][1..] == [];
    }
  }

  /** The layout of a finished file entry: the fixed keys in template order, with each
      optional key present exactly when its value is given. */
  function FileEntry(url: Json, filename: Json, roleArn: Option<Json>, description: Option<Json>, size: Option<int>): Json {
    JObj([("fileType", JStr("file")),
          ("storageLocation", JObj([("url", url), ("@type", JStr("s3"))] + OptionalField("roleArn", roleArn))),
          ("filename", filename)]
         + OptionalField("description", description)
         + OptionalField("fileSizeInBytes", if size.Some? then Some(JInt(size.value)) else None))
  }

  /** The entry built for one file input: `s3url` and `filename` are read first (a missing
      one is a `KeyError`, an input that is not a dict a `TypeError`), then the size goes
      through `int()`. The role is read under `roleArnKey`, which is `rolearn` for the
      inputs of a `files` list and `roleArn` for a single-file request. */
  function Entry(input: Json, roleArnKey: string): Result<Json, Fault> {
    match Subscript(input, "s3url")
    case Failure(f) => Failure(f)
    case Success(url) =>
      match Subscript(input, "filename")
      case Failure(f) => Failure(f)
      case Success(filename) =>
        var fields := input.fields;
        if Has(fields, "filesizeinbytes") then
          match ToInt(Get(fields, "filesizeinbytes").value)
          case Failure(f) => Failure(f)
          case Success(size) =>
            Success(FileEntry(url, filename, Get(fields, roleArnKey), Get(fields, "description"), Some(size)))
        else
          Success(FileEntry(url, filename, Get(fields, roleArnKey), Get(fields, "description"), None))
  }

  /** The entries of a `files` list, in list order; the first input that fails stops the
      list. */
  function Entries(inputs: seq<Json>): Result<seq<Json>, Fault>
    decreases |inputs|
  {
    if inputs == [] then Success([])
    else
      match Entry(inputs[0], "rolearn")
      case Failure(f) => Failure(f)
      case Success(e) =>
        match Entries(inputs[1..])
        case Failure(f) => Failure(f)
        case Success(rest) => Success([e] + rest)
  }

  /** `modify_file_request(user_request)`: one entry per element of `files` when the request
      has that key, otherwise a single entry built from the request itself. */
  function FileRequests(request: Dict): Result<seq<Json>, Fault> {
    if Has(request, "files") then
      match Iterate(Get(request, "files").value)
      case Failure(f) => Failure(f)
      case Success(inputs) => Entries(inputs)
    else
      match Entry(JObj(request), "roleArn")
      case Failure(f) => Failure(f)
      case Success(e) => Success([e])
  }

  /** The optional request keys `create_payload` copies, each with the payload key it is
      copied to, in the order it tests them. */
  const Renames: seq<(string, string)> :=
    [("rolearn", "rolearn"), ("availablefrom", "availableFrom"), ("availableto", "availableTo"),
     ("contentfrom", "contentFrom"), ("contentto", "contentTo"), ("attributes", "attributes")]

  /** `if from in user_request: payload[to] = user_request[from]`. */
  function CopyAs(payload: Dict, request: Dict, rename: (string, string)): Dict {
    if Has(request, rename.0) then Set(payload, rename.1, Get(request, rename.0).value) else payload
  }

  /** The optional copies of `create_payload`, one after the other. */
  function CopyOptional(payload: Dict, request: Dict, renames: seq<(string, string)>): Dict
    decreases |renames|
  {
    if renames == [] then payload else CopyOptional(CopyAs(payload, request, renames[0]), request, renames[1..])
  }

  /** The four keys every payload starts with. */
  function BasePayload(filesetName: Json, bucketName: Json, packageId: Json, files: seq<Json>): Dict {
    [("filesetName", filesetName), ("bucketName", bucketName), ("packageId", packageId), ("files", JList(files))]
  }

  /** `create_payload(user_request)`: the file list first, then the three required keys
      (a missing one is a `KeyError`), then the optional copies. */
  function Payload(request: Dict): Result<Json, Fault> {
    match FileRequests(request)
    case Failure(f) => Failure(f)
    case Success(files) =>
      match Subscript(JObj(request), "filesetname")
      case Failure(f) => Failure(f)
      case Success(filesetName) =>
        match Subscript(JObj(request), "bucketname")
        case Failure(f) => Failure(f)
        case Success(bucketName) =>
          match Subscript(JObj(request), "packageid")
          case Failure(f) => Failure(f)
          case Success(packageId) =>
            Success(JObj(CopyOptional(BasePayload(filesetName, bucketName, packageId, files), request, Renames)))
  }

  // ---------------------------------------------------------------------------------------
  // The imperative builders
  // ---------------------------------------------------------------------------------------

  /** The `storageLocation` of one entry: the template's URL set, its role set when one is
      given and deleted otherwise. */
  method FillStorage(url: Json, roleArn: Option<Json>) returns (storage: Dict)
    ensures storage == [("url", url), ("@type", JStr("s3"))] + OptionalField("roleArn", roleArn)
  {
    storage := StorageTemplate;
    storage := Set(storage, "url", url);
    ghost var located := storage;
    assert located == [("url", url), ("@type", JStr("s3")), ("roleArn", JStr(""))];
    if roleArn.Some? {
      SetPresent(located, 2, roleArn.value);
      storage := Set(storage, "roleArn", roleArn.value);
    } else {
      DelPresent(located, 2);
      storage := Del(storage, "roleArn");
    }
  }

  /** The top-level keys of one entry other than `storageLocation`: the template's file name
      set, and its description and size set when given and deleted otherwise. */
  method FillFileKeys(filename: Json, description: Option<Json>, size: Option<int>) returns (entry: Dict)
    ensures entry == [("fileType", JStr("file")), ("storageLocation", JObj(StorageTemplate)), ("filename", filename)]
                     + OptionalField("description", description)
                     + OptionalField("fileSizeInBytes", if size.Some? then Some(JInt(size.value)) else None)
  {
    entry := FileTemplate;
    NamedTemplate(filename);
    entry := Set(entry, "filename", filename);
    DescriptionStep(filename, description);
    if description.Some? {
      entry := Set(entry, "description", description.value);
    } else {
      entry := Del(entry, "description");
    }
    ghost var described := [("fileType", JStr("file")), ("storageLocation", JObj(StorageTemplate)), ("filename", filename)]
                           + OptionalField("description", description);
    assert forall j :: 0 <= j < |described| ==> described[j].0 != "fileSizeInBytes";
    if size.Some? {
      SetLast(described, "fileSizeInBytes", JInt(0), JInt(size.value));
      entry := Set(entry, "fileSizeInBytes", JInt(size.value));
    } else {
      DelLast(described, "fileSizeInBytes", JInt(0));
      entry := Del(entry, "fileSizeInBytes");
    }
  }

  /** The file template with its name filled in. */
  function NamedFileTemplate(filename: Json): Dict {
    [("fileType", JStr("file")), ("storageLocation", JObj(StorageTemplate)), ("filename", filename),
     ("description", JStr("")), ("fileSizeInBytes", JInt(0))]
  }

  lemma NamedTemplate(filename: Json)
    ensures Set(FileTemplate, "filename", filename) == NamedFileTemplate(filename)
  {
    SetPresent(FileTemplate, 2, filename);
  }

  /** Setting or deleting the description of the named template leaves the given
      description, if any, before the size placeholder. */
  lemma DescriptionStep(filename: Json, description: Option<Json>)
    ensures var named := NamedFileTemplate(filename);
      (if description.Some? then Set(named, "description", description.value) else Del(named, "description")) ==
        [("fileType", JStr("file")), ("storageLocation", JObj(StorageTemplate)), ("filename", filename)]
        + OptionalField("description", description) + [("fileSizeInBytes", JInt(0))]
  {
    var named := NamedFileTemplate(filename);
    if description.Some? {
      SetPresent(named, 3, description.value);
    } else {
      DelPresent(named, 3);
    }
  }


  /** One file entry, built as `modify_file_request` builds it: a copy of the template whose
      keys are set from the input or deleted. */
  method FillEntry(input: Json, roleArnKey: string) returns (r: Result<Json, Fault>)
    ensures r == Entry(input, roleArnKey)
  {
    var url := Subscript(input, "s3url");
    if url.Failure? {
      return Failure(url.error);
    }
    var filename := Subscript(input, "filename");
    if filename.Failure? {
      return Failure(filename.error);
    }
    var fields := input.fields;
    var storage := FillStorage(url.value, Get(fields, roleArnKey));
    var size: Option<int> := None;
    if Has(fields, "filesizeinbytes") {
      var n := ToInt(Get(fields, "filesizeinbytes").value);
      if n.Failure? {
        return Failure(n.error);
      }
      size := Some(n.value);
    }
    var entry := FillFileKeys(filename.value, Get(fields, "description"), size);
    ghost var filled := entry;
    SetPresent(filled, 1, JObj(storage));
    entry := Set(entry, "storageLocation", JObj(storage));
    r := Success(JObj(entry));
    assert entry == filled[..1] + [("storageLocation", JObj(storage))] + filled[2..];
    assert r.value == FileEntry(url.value, filename.value, Get(fields, roleArnKey), Get(fields, "description"), size);
  }

  /** `modify_file_request(user_request)`. */
  method ModifyFileRequest(request: Dict) returns (r: Result<seq<Json>, Fault>)
    ensures r == FileRequests(request)
  {
    if Has(request, "files") {
      var inputs := Iterate(Get(request, "files").value);
      if inputs.Failure? {
        return Failure(inputs.error);
      }
      var all := inputs.value;
      var files: seq<Json> := [];
      var i := 0;
      ghost var whole := Entries(all);
      assert all[i..] == all;
      assert whole.Success? ==> [] + whole.value == whole.value;
      while i < |all|
        invariant 0 <= i <= |all|
        invariant whole == Prepend(files, Entries(all[i..]))
      {
        assert all[i..][0] == all[i] && all[i..][1..] == all[i + 1..];
        var entry := FillEntry(all[i], "rolearn");
        if entry.Failure? {
          return Failure(entry.error);
        }
        ghost var rest := Entries(all[i + 1..]);
        assert rest.Success? ==> (files + [entry.value]) + rest.value == files + ([entry.value] + rest.value);
        files := files + [entry.value];
        i := i + 1;
      }
      assert all[i..] == [];
      assert files + [] == files;
      return Success(files);
    } else {
      var entry := FillEntry(JObj(request), "roleArn");
      if entry.Failure? {
        return Failure(entry.error);
      }
      return Success([entry.value]);
    }
  }

  /** `create_payload(user_request)`: the payload dict grown key by key. */
  method CreatePayload(request: Dict) returns (r: Result<Json, Fault>)
    ensures r == Payload(request)
  {
    var files := ModifyFileRequest(request);
    if files.Failure? {
      return Failure(files.error);
    }
    var filesetName := Subscript(JObj(request), "filesetname");
    if filesetName.Failure? {
      return Failure(filesetName.error);
    }
    var bucketName := Subscript(JObj(request), "bucketname");
    if bucketName.Failure? {
      return Failure(bucketName.error);
    }
    var packageId := Subscript(JObj(request), "packageid");
    if packageId.Failure? {
      return Failure(packageId.error);
    }
    var payload := BasePayload(filesetName.value, bucketName.value, packageId.value, files.value);
    ghost var goal := CopyOptional(payload, request, Renames);
    ghost var renames := Renames;
    assert renames[0] == ("rolearn", "rolearn");
    if Has(request, "rolearn") {
      payload := Set(payload, "rolearn", Get(request, "rolearn").value);
    }
    renames := renames[1..];
    assert goal == CopyOptional(payload, request, renames);
    assert renames[0] == ("availablefrom", "availableFrom");
    if Has(request, "availablefrom") {
      payload := Set(payload, "availableFrom", Get(request, "availablefrom").value);
    }
    renames := renames[1..];
    assert goal == CopyOptional(payload, request, renames);
    assert renames[0] == ("availableto", "availableTo");
    if Has(request, "availableto") {
      payload := Set(payload, "availableTo", Get(request, "availableto").value);
    }
    renames := renames[1..];
    assert goal == CopyOptional(payload, request, renames);
    assert renames[0] == ("contentfrom", "contentFrom");
    if Has(request, "contentfrom") {
      payload := Set(payload, "contentFrom", Get(request, "contentfrom").value);
    }
    renames := renames[1..];
    assert goal == CopyOptional(payload, request, renames);
    assert renames[0] == ("contentto", "contentTo");
    if Has(request, "contentto") {
      payload := Set(payload, "contentTo", Get(request, "contentto").value);
    }
    renames := renames[1..];
    assert goal == CopyOptional(payload, request, renames);
    assert renames[0] == ("attributes", "attributes");
    if Has(request, "attributes") {
      payload := Set(payload, "attributes", Get(request, "attributes").value);
    }
    renames := renames[1..];
    assert renames == [];
    return Success(JObj(payload));
  }

  // ---------------------------------------------------------------------------------------
  // What the entries hold
  // ---------------------------------------------------------------------------------------

  /** The keys of a finished entry hold what it was built from: the fixed file type, the URL
      and `s3` type under `storageLocation`, the file name, and each optional key exactly
      when its value was given. */
  lemma FileEntryFields(url: Json, filename: Json, roleArn: Option<Json>, description: Option<Json>, size: Option<int>)
    ensures var e := FileEntry(url, filename, roleArn, description, size).fields;
      var location := [("url", url), ("@type", JStr("s3"))] + OptionalField("roleArn", roleArn);
      Get(e, "fileType") == Some(JStr("file")) &&
      Get(e, "storageLocation") == Some(JObj(location)) &&
      Get(location, "url") == Some(url) && Get(location, "@type") == Some(JStr("s3")) &&
      Get(location, "roleArn") == roleArn &&
      Get(e, "filename") == Some(filename) &&
      Get(e, "description") == description &&
      Get(e, "fileSizeInBytes") == (if size.Some? then Some(JInt(size.value)) else None)
  {
    var head: Dict := [("fileType", JStr("file")),
                       ("storageLocation", JObj([("url", url), ("@type", JStr("s3"))] + OptionalField("roleArn", roleArn))),
                       ("filename", filename)];
    var d := OptionalField("description", description);
    var z := OptionalField("fileSizeInBytes", if size.Some? then Some(JInt(size.value)) else None);
    var fixed: Dict := [("url", url), ("@type", JStr("s3"))];
    assert Keys(head) == ["fileType", "storageLocation", "filename"];
    GetAt(head, 0);
    GetAt(head, 1);
    GetAt(head, 2);
    GetNone(head, "description");
    GetNone(head, "fileSizeInBytes");
    GetAppend(head, d, "description");
    GetAppend(head, d, "fileSizeInBytes");
    GetAppend(head, d, "filename");
    GetAppend(head, d, "storageLocation");
    GetAppend(head, d, "fileType");
    GetOptionalField("description", description, "fileSizeInBytes");
    GetOptionalField("description", description, "description");
    GetOptionalField("fileSizeInBytes", if size.Some? then Some(JInt(size.value)) else None, "description");
    GetOptionalField("fileSizeInBytes", if size.Some? then Some(JInt(size.value)) else None, "fileSizeInBytes");
    GetAppend(head + d, z, "description");
    GetAppend(head + d, z, "fileSizeInBytes");
    GetAppend(head + d, z, "filename");
    GetAppend(head + d, z, "storageLocation");
    GetAppend(head + d, z, "fileType");
    assert Keys(fixed) == ["url", "@type"];
    GetAt(fixed, 0);
    GetAt(fixed, 1);
    GetNone(fixed, "roleArn");
    GetOptionalField("roleArn", roleArn, "roleArn");
    GetAppend(fixed, OptionalField("roleArn", roleArn), "roleArn");
    GetAppend(fixed, OptionalField("roleArn", roleArn), "url");
    GetAppend(fixed, OptionalField("roleArn", roleArn), "@type");
  }

  /** An entry is built exactly when the input is a dict with `s3url` and `filename` and a
      size, if it has one, that `int()` accepts; otherwise the first failing read is raised. */
  lemma EntryOutcome(input: Json, roleArnKey: string)
    ensures var r := Entry(input, roleArnKey);
      (r.Success? <==>
        input.JObj? && Has(input.fields, "s3url") && Has(input.fields, "filename") &&
        (Has(input.fields, "filesizeinbytes") ==> ToInt(Get(input.fields, "filesizeinbytes").value).Success?)) &&
      (!input.JObj? ==> r == Failure(NotSubscriptable)) &&
      (input.JObj? && !Has(input.fields, "s3url") ==> r == Failure(KeyMissing("s3url"))) &&
      (input.JObj? && Has(input.fields, "s3url") && !Has(input.fields, "filename") ==> r == Failure(KeyMissing("filename")))
  {
  }

  /** A built entry holds the input's URL and file name, the `s3` storage type, the role
      exactly when the input has `roleArnKey`, the description exactly when the input has
      one, and the size, as `int()` reads it, exactly when the input has one. */
  lemma EntryFields(input: Json, roleArnKey: string)
    requires Entry(input, roleArnKey).Success?
    ensures var e := Entry(input, roleArnKey).value;
      var location := [("url", Get(input.fields, "s3url").value), ("@type", JStr("s3"))]
                      + OptionalField("roleArn", Get(input.fields, roleArnKey));
      e.JObj? &&
      Get(e.fields, "fileType") == Some(JStr("file")) &&
      Get(e.fields, "storageLocation") == Some(JObj(location)) &&
      Get(location, "url") == Get(input.fields, "s3url") && Get(location, "@type") == Some(JStr("s3")) &&
      Get(location, "roleArn") == Get(input.fields, roleArnKey) &&
      Get(e.fields, "filename") == Get(input.fields, "filename") &&
      Get(e.fields, "description") == Get(input.fields, "description") &&
      (Has(e.fields, "fileSizeInBytes") <==> Has(input.fields, "filesizeinbytes")) &&
      (Has(input.fields, "filesizeinbytes") ==>
        Get(e.fields, "fileSizeInBytes") == Some(JInt(ToInt(Get(input.fields, "filesizeinbytes").value).value)))
  {
    var fields := input.fields;
    var size := if Has(fields, "filesizeinbytes") then Some(ToInt(Get(fields, "filesizeinbytes").value).value) else None;
    FileEntryFields(Get(fields, "s3url").value, Get(fields, "filename").value, Get(fields, roleArnKey), Get(fields, "description"), size);
  }

  /** A `files` list that builds gives one entry per input, in input order. */
  lemma {:induction false} EntriesInOrder(inputs: seq<Json>)
    ensures var r := Entries(inputs);
      r.Success? ==>
        |r.value| == |inputs| &&
        forall i :: 0 <= i < |inputs| ==> Entry(inputs[i], "rolearn") == Success(r.value[i])
    decreases |inputs|
  {
    if inputs != [] && Entries(inputs).Success? {
      EntriesInOrder(inputs[1..]);
      forall i | 1 <= i < |inputs| ensures inputs[i] == inputs[1..][i - 1] { }
    }
  }

  /** With a `files` key, the file list has one entry per element of it, each read with the
      lower-case `rolearn` key; without one, it has exactly one entry, built from the request
      itself with the camel-case `roleArn` key. */
  lemma FileRequestsShape(request: Dict)
    ensures var r := FileRequests(request);
      (Has(request, "files") && r.Success? ==>
        var inputs := Iterate(Get(request, "files").value).value;
        |r.value| == |inputs| && forall i :: 0 <= i < |inputs| ==> Entry(inputs[i], "rolearn") == Success(r.value[i])) &&
      (!Has(request, "files") ==>
        (r.Success? <==> Entry(JObj(request), "roleArn").Success?) &&
        (r.Success? ==> r.value == [Entry(JObj(request), "roleArn").value]))
  {
    if Has(request, "files") && Iterate(Get(request, "files").value).Success? {
      EntriesInOrder(Iterate(Get(request, "files").value).value);
    }
  }

  // ---------------------------------------------------------------------------------------
  // What the payload holds
  // ---------------------------------------------------------------------------------------

  /** The renames write distinct keys. */
  predicate DistinctTargets(renames: seq<(string, string)>) {
    forall i, j :: 0 <= i < j < |renames| ==> renames[i].1 != renames[j].1
  }

  /** The source key of the rename that writes `k`, if one does. */
  function SourceOf(renames: seq<(string, string)>, k: string): Option<string>
    decreases |renames|
  {
    if renames == [] then None
    else if renames[0].1 == k then Some(renames[0].0)
    else SourceOf(renames[1..], k)
  }

  /** After the optional copies, a target key holds the request's value of its source key
      when the request has it, and is as before otherwise; other keys are untouched. */
  lemma {:induction false} CopyOptionalFields(payload: Dict, request: Dict, renames: seq<(string, string)>, k: string)
    requires DistinctTargets(renames)
    ensures Get(CopyOptional(payload, request, renames), k) ==
      if SourceOf(renames, k).Some? && Has(request, SourceOf(renames, k).value)
      then Get(request, SourceOf(renames, k).value)
      else Get(payload, k)
    decreases |renames|
  {
    if renames != [] {
      var next := CopyAs(payload, request, renames[0]);
      CopyOptionalFields(next, request, renames[1..], k);
      if Has(request, renames[0].0) {
        GetSet(payload, renames[0].1, Get(request, renames[0].0).value, k);
      }
      if renames[0].1 == k {
        NotTargetAgain(renames, k);
      }
    }
  }

  /** With distinct targets, the key of the first rename is not written again. */
  lemma NotTargetAgain(renames: seq<(string, string)>, k: string)
    requires DistinctTargets(renames) && renames != [] && renames[0].1 == k
    ensures SourceOf(renames[1..], k).None?
  {
    var rest := renames[1..];
    forall i | 0 <= i < |rest| ensures rest[i].1 != k {
      assert rest[i] == renames[i + 1];
    }
    NoSourceWithoutTarget(rest, k);
  }

  /** No rename writes `k` when no target is `k`. */
  lemma {:induction false} NoSourceWithoutTarget(renames: seq<(string, string)>, k: string)
    requires forall i :: 0 <= i < |renames| ==> renames[i].1 != k
    ensures SourceOf(renames, k).None?
    decreases |renames|
  {
    if renames != [] {
      var rest := renames[1..];
      forall i | 0 <= i < |rest| ensures rest[i].1 != k {
        assert rest[i] == renames[i + 1];
      }
      NoSourceWithoutTarget(rest, k);
    }
  }

  /** The request key each payload key other than `files` is copied from. */
  function PayloadSource(k: string): Option<string> {
    if k == "filesetName" then Some("filesetname")
    else if k == "bucketName" then Some("bucketname")
    else if k == "packageId" then Some("packageid")
    else if k == "rolearn" then Some("rolearn")
    else if k == "availableFrom" then Some("availablefrom")
    else if k == "availableTo" then Some("availableto")
    else if k == "contentFrom" then Some("contentfrom")
    else if k == "contentTo" then Some("contentto")
    else if k == "attributes" then Some("attributes")
    else None
  }

  /** A payload is built exactly when the file list builds and the request has `filesetname`,
      `bucketname` and `packageid`; these are read in that order after the file list. */
  lemma PayloadOutcome(request: Dict)
    ensures var r := Payload(request);
      (r.Success? <==>
        FileRequests(request).Success? && Has(request, "filesetname") && Has(request, "bucketname") &&
        Has(request, "packageid")) &&
      (FileRequests(request).Failure? ==> r == Failure(FileRequests(request).error)) &&
      (FileRequests(request).Success? && !Has(request, "filesetname") ==> r == Failure(KeyMissing("filesetname")))
  {
  }

  /** The renames of `create_payload` look up the request keys `PayloadSource` names. */
  lemma RenamesSources(k: string)
    ensures SourceOf(Renames, k) ==
      if k in ["filesetName", "bucketName", "packageId", "files"] then None else PayloadSource(k)
  {
    var r := Renames;
    assert r[1..] == Renames[1..] && r[1..][1..] == Renames[2..] && Renames[2..][1..] == Renames[3..];
    assert Renames[3..][1..] == Renames[4..] && Renames[4..][1..] == Renames[5..] && Renames[5..][1..] == [];
  }

  /** A built payload holds, under each of its keys other than `files`, exactly the request
      value of the key `PayloadSource` names (absent when the request lacks it), and nothing
      under any other key; `files` holds the file list. */
  lemma PayloadFields(request: Dict, k: string)
    requires Payload(request).Success?
    ensures var p := Payload(request).value.fields;
      Get(p, "files") == Some(JList(FileRequests(request).value)) &&
      (k != "files" ==> Get(p, k) == if PayloadSource(k).Some? then Get(request, PayloadSource(k).value) else None)
  {
    var base := BasePayload(Get(request, "filesetname").value, Get(request, "bucketname").value,
                            Get(request, "packageid").value, FileRequests(request).value);
    assert DistinctTargets(Renames);
    RenamesSources(k);
    RenamesSources("files");
    CopyOptionalFields(base, request, Renames, k);
    CopyOptionalFields(base, request, Renames, "files");
    BasePayloadFields(Get(request, "filesetname").value, Get(request, "bucketname").value,
                      Get(request, "packageid").value, FileRequests(request).value, k);
    BasePayloadFields(Get(request, "filesetname").value, Get(request, "bucketname").value,
                      Get(request, "packageid").value, FileRequests(request).value, "files");
  }

  lemma BasePayloadFields(filesetName: Json, bucketName: Json, packageId: Json, files: seq<Json>, k: string)
    ensures Get(BasePayload(filesetName, bucketName, packageId, files), k) ==
      if k == "filesetName" then Some(filesetName)
      else if k == "bucketName" then Some(bucketName)
      else if k == "packageId" then Some(packageId)
      else if k == "files" then Some(JList(files))
      else None
  {
    var base := BasePayload(filesetName, bucketName, packageId, files);
    assert Keys(base) == ["filesetName", "bucketName", "packageId", "files"];
    GetAt(base, 0);
    GetAt(base, 1);
    GetAt(base, 2);
    GetAt(base, 3);
    GetNone(base, k);
  }
}
