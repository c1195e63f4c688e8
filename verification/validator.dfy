/** The checks and copies that fill the publisher's request map from `global.ini`, from a
    `config.ini` or from the command line (`validator.py`). Each validator writes into the
    caller's map as it goes and may raise part way, leaving what it already wrote. */
module Validator {
  import opened Wrappers
  import opened Text
  import opened Json
  import opened Exceptions
  import opened IniFile

  const RdpKey := "RDP"
  const GlobalKey := "CFS_GLOBAL"
  const ConfigKey := "CFS_CONFIG"
  const FilesKey := "CFS_FILES"
  const GlobalConfigFile := "global.ini"

  /** The most lines a `[CFS_FILES]` section may hold. */
  const MaxFiles := 10

  const MissingCredentialsMessage :=
    "ERROR: Please specify 'username', 'password' and 'clientId' on your global configuration file: " + GlobalConfigFile
  const MissingBucketMessage :=
    "ERROR: Please specify 'bucketName' and 'packageId' on your global configuration file: " + GlobalConfigFile
  const TooManyFilesMessage :=
    "ERROR: Please check [" + FilesKey + "], This tools support only 10 files per config"
  const FileSizeMessage :=
    "ERROR: Please check 'fileSizeInBytes' value,  'fileSizeInBytes' should be number only"
  const MissingFilesetArgument := "ERROR: Please specify -fs <file-set name> or --filesetname <file-set name> "
  const MissingFilenameArgument := "ERROR: Please specify -fn <file name> or --filename <file name> "
  const MissingS3UrlArgument := "ERROR: Please specify  -s3url <S3 Url> or --s3url <S3 Url> "

  function EmptyGlobalMessage(key: string): string {
    "ERROR: Please specify '" + key + "' on your global configuration file name : " + GlobalConfigFile
  }

  function MissingFilesetMessage(configFile: string): string {
    "ERROR: Please specify 'filesetName' on your configuration file name : " + configFile
  }

  function FileLineMessage(configFile: string): string {
    "ERROR: Please check [" + FilesKey + "] section in " + configFile
      + " should be FileName,S3Url,\"File Description\",FileSizeInBytes(optional)"
  }

  // ---------------------------------------------------------------------------------------
  // Attribute lists: `name=value,name=value,...`
  // ---------------------------------------------------------------------------------------

  /** The items of an attribute list: split on `,`, each item stripped and split on `=`. */
  function ItemParts(text: string): seq<seq<string>> {
    var items := Split(text, ',');
    seq(|items|, i requires 0 <= i < |items| => Split(Strip(items[i]), '='))
  }

  /** `{"name": parts[0], "value": parts[1]}`; an item without `=` is an `IndexError`, and
      text after a second `=` is dropped. */
  function Attribute(parts: seq<string>): Result<Json, Fault> {
    if |parts| < 2 then Failure(IndexOutOfRange)
    else Success(JObj([("name", JStr(parts[0])), ("value", JStr(parts[1]))]))
  }

  /** The attributes of the items, in order: one per item, and an `IndexError` as soon as
      one item has no `=`. */
  function Attributes(items: seq<seq<string>>): (r: Result<seq<Json>, Fault>)
    ensures r.Success? <==> forall i :: 0 <= i < |items| ==> |items[i]| >= 2
    ensures r.Failure? ==> r.error == IndexOutOfRange
    ensures r.Success? ==>
              |r.value| == |items| && forall i :: 0 <= i < |items| ==> Attribute(items[i]) == Success(r.value[i])
  {
    if items == [] then Success([])
    else
      match Attribute(items[0])
      case Failure(f) => Failure(f)
      case Success(a) =>
        var rest := Attributes(items[1..]);
        assert forall i :: 1 <= i < |items| ==> items[1..][i - 1] == items[i];
        if rest.Failure? then Failure(rest.error) else Success([a] + rest.value)
  }

  /** The attribute-list parser `validate_global_config` and `validate_argument` share. */
  method ParseAttributes(text: string) returns (r: Result<seq<Json>, Fault>)
    ensures r == Attributes(ItemParts(text))
  {
    var items := Split(text, ',');
    var stripped := seq(|items|, i requires 0 <= i < |items| => Strip(items[i]));
    ghost var parsed := ItemParts(text);
    var attributes: seq<Json> := [];
    var i := 0;
    while i < |stripped|
      invariant 0 <= i <= |stripped| && |attributes| == i
      invariant forall k :: 0 <= k < i ==> Attribute(parsed[k]) == Success(attributes[k])
    {
      var parts := Split(stripped[i], '=');
      assert parts == parsed[i];
      if |parts| < 2 {
        ghost var whole := Attributes(parsed);
        assert !whole.Success?;
        return Failure(IndexOutOfRange);
      }
      attributes := attributes + [JObj([("name", JStr(parts[0])), ("value", JStr(parts[1]))])];
      i := i + 1;
    }
    r := Success(attributes);
    ghost var whole := Attributes(parsed);
    assert whole.Success?;
    assert forall k :: 0 <= k < |parsed| ==> whole.value[k] == attributes[k];
    assert whole.value == attributes;
  }

  /** A name and a value that can be listed as `name=value` and read back unchanged. */
  predicate PlainAttribute(name: string, value: string) {
    ',' !in name && '=' !in name && ',' !in value && '=' !in value &&
    (name == [] || !IsSpace(name[0])) && (value == [] || !IsSpace(value[|value| - 1]))
  }

  function AttributeItems(pairs: seq<(string, string)>): seq<string> {
    seq(|pairs|, i requires 0 <= i < |pairs| => pairs[i].0 + "=" + pairs[i].1)
  }

  function AttributeObjects(pairs: seq<(string, string)>): seq<Json> {
    seq(|pairs|, i requires 0 <= i < |pairs| => JObj([("name", JStr(pairs[i].0)), ("value", JStr(pairs[i].1))]))
  }

  lemma PairParts(name: string, value: string)
    requires PlainAttribute(name, value)
    ensures Split(Strip(name + "=" + value), '=') == [name, value]
  {
    var item := name + "=" + value;
    assert item[|name|] == '=';
    assert !IsSpace(item[0]) && !IsSpace(item[|item| - 1]);
    assert Strip(item) == item;
    assert Join([name, value], "=") == item;
    SplitJoin([name, value], '=');
  }

  /** Writing `name=value` pairs as a comma-separated list and parsing it gives the pairs
      back, in order. */
  lemma {:induction false} AttributesRoundTrip(pairs: seq<(string, string)>)
    requires |pairs| >= 1
    requires forall i :: 0 <= i < |pairs| ==> PlainAttribute(pairs[i].0, pairs[i].1)
    ensures Attributes(ItemParts(Join(AttributeItems(pairs), ","))) == Success(AttributeObjects(pairs))
  {
    var items := AttributeItems(pairs);
    SplitJoin(items, ',');
    var parsed := ItemParts(Join(items, ","));
    assert |parsed| == |pairs|;
    forall i | 0 <= i < |pairs|
      ensures parsed[i] == [pairs[i].0, pairs[i].1]
    {
      PairParts(pairs[i].0, pairs[i].1);
    }
    var r := Attributes(parsed);
    assert r.Success?;
    assert forall i :: 0 <= i < |pairs| ==> r.value[i] == AttributeObjects(pairs)[i];
    assert r.value == AttributeObjects(pairs);
  }

  // ---------------------------------------------------------------------------------------
  // validate_global_config
  // ---------------------------------------------------------------------------------------

  /** The value `validate_global_config` leaves under a `[CFS_GLOBAL]` option that it copied
      without raising: the parsed list for `attributes`, the text for any other option. */
  function GlobalValue(key: string, value: string): Json {
    var attrs := Attributes(ItemParts(value));
    if key == "attributes" && attrs.Success? then JList(attrs.value) else JStr(value)
  }

  /** The copy loop over `[CFS_GLOBAL]`: each option is written first, then an empty value
      raises, then `attributes` is parsed and written over. */
  function CopyGlobal(fields: Dict, items: Section): (Dict, Option<Error>)
    decreases |items|
  {
    if items == [] then (fields, None)
    else
      var (key, value) := items[0];
      var copied := Set(fields, key, JStr(value));
      if value == "" then (copied, Some(Raised(EmptyGlobalMessage(key))))
      else if key == "attributes" then
        match Attributes(ItemParts(value))
        case Failure(f) => (copied, Some(Builtin(f)))
        case Success(attrs) => CopyGlobal(Set(copied, key, JList(attrs)), items[1..])
      else CopyGlobal(copied, items[1..])
  }

  /** `validate_global_config` on the parsed `global.ini`: the request map it leaves and the
      exception it raises, if any. */
  function GlobalConfigEffect(config: Config, fields: Dict): (Dict, Option<Error>) {
    match GetSection(config, RdpKey)
    case Failure(f) => (fields, Some(Builtin(f)))
    case Success(rdp) =>
      if !HasOption(rdp, "username") || !HasOption(rdp, "password") || !HasOption(rdp, "clientId") then
        (fields, Some(Raised(MissingCredentialsMessage)))
      else
        match GetSection(config, GlobalKey)
        case Failure(f) => (fields, Some(Builtin(f)))
        case Success(global) =>
          if !HasOption(global, "bucketName") || !HasOption(global, "packageId") then
            (fields, Some(Raised(MissingBucketMessage)))
          else
            CopyGlobal(fields, global)
  }

  /** Without an exception, every `[CFS_GLOBAL]` option is in the request map with its value
      (parsed when it is `attributes`), every value was non-empty, and no other key changed. */
  lemma {:induction false} CopyGlobalCopiesAll(fields: Dict, items: Section)
    requires UniqueOptions(items)
    ensures var (f, err) := CopyGlobal(fields, items);
      err.None? ==>
        (forall i :: 0 <= i < |items| ==> items[i].1 != "" && Get(f, items[i].0) == Some(GlobalValue(items[i].0, items[i].1))) &&
        (forall k :: k !in OptionNames(items) ==> Get(f, k) == Get(fields, k))
    decreases |items|
  {
    if items != [] {
      var (key, value) := items[0];
      var copied := Set(fields, key, JStr(value));
      var (f, err) := CopyGlobal(fields, items);
      if err.None? {
        assert value != "";
        assert key == "attributes" ==> Attributes(ItemParts(value)).Success?;
        var next := if key == "attributes" then Set(copied, key, JList(Attributes(ItemParts(value)).value)) else copied;
        assert CopyGlobal(fields, items) == CopyGlobal(next, items[1..]);
        CopyGlobalCopiesAll(next, items[1..]);
        assert OptionNames(items) == [key] + OptionNames(items[1..]);
        assert key !in OptionNames(items[1..]) by {
          forall j | 0 <= j < |items[1..]| ensures items[1..][j].0 != key {
            assert items[1..][j] == items[j + 1];
          }
        }
        forall k ensures Get(next, k) == if k == key then Some(GlobalValue(key, value)) else Get(fields, k) {
          GetSet(fields, key, JStr(value), k);
          if key == "attributes" {
            GetSet(copied, key, JList(Attributes(ItemParts(value)).value), k);
          }
        }
        forall i | 0 <= i < |items|
          ensures items[i].1 != "" && Get(f, items[i].0) == Some(GlobalValue(items[i].0, items[i].1))
        {
          if i > 0 {
            assert items[i] == items[1..][i - 1];
          }
        }
      }
    }
  }

  /** An empty value raises only after its option has been written: the map then holds
      the empty text under that option. */
  lemma {:induction false} EmptyGlobalValueWrittenFirst(fields: Dict, items: Section)
    ensures var (f, err) := CopyGlobal(fields, items);
      err.Some? && err.value.Raised? ==>
        exists i :: 0 <= i < |items| && items[i].1 == "" &&
          err.value == Raised(EmptyGlobalMessage(items[i].0)) && Get(f, items[i].0) == Some(JStr(""))
    decreases |items|
  {
    if items != [] {
      var (key, value) := items[0];
      var copied := Set(fields, key, JStr(value));
      var (f, err) := CopyGlobal(fields, items);
      if value == "" {
        GetSet(fields, key, JStr(value), key);
        assert items[0].1 == "" && Get(f, items[0].0) == Some(JStr(""));
      } else if err.Some? && err.value.Raised? {
        assert key == "attributes" ==> Attributes(ItemParts(value)).Success?;
        var next := if key == "attributes" then Set(copied, key, JList(Attributes(ItemParts(value)).value)) else copied;
        assert CopyGlobal(fields, items) == CopyGlobal(next, items[1..]);
        EmptyGlobalValueWrittenFirst(next, items[1..]);
        var j :| 0 <= j < |items[1..]| && items[1..][j].1 == "" &&
          err.value == Raised(EmptyGlobalMessage(items[1..][j].0)) && Get(f, items[1..][j].0) == Some(JStr(""));
        assert items[j + 1] == items[1..][j];
      }
    }
  }

  /** `validate_global_config` succeeds only when both sections exist, `[RDP]` names the
      credentials and `[CFS_GLOBAL]` names the bucket and the package; a missing credential
      or bucket option raises before anything is written. */
  lemma GlobalConfigRequiredOptions(config: Config, fields: Dict)
    ensures var (f, err) := GlobalConfigEffect(config, fields);
      (err.None? ==>
        RdpKey in config && GlobalKey in config &&
        HasOption(config[RdpKey], "username") && HasOption(config[RdpKey], "password") &&
        HasOption(config[RdpKey], "clientId") &&
        HasOption(config[GlobalKey], "bucketName") && HasOption(config[GlobalKey], "packageId")) &&
      ((RdpKey in config &&
        !(HasOption(config[RdpKey], "username") && HasOption(config[RdpKey], "password") &&
          HasOption(config[RdpKey], "clientId"))) ==>
         (f, err) == (fields, Some(Raised(MissingCredentialsMessage))))
  {
  }

  // ---------------------------------------------------------------------------------------
  // validate_config
  // ---------------------------------------------------------------------------------------

  /** A `[CFS_FILES]` entry as `validate_config` rebuilds it before splitting: configparser
      cut the line at its first `:` (the one in `s3:`), so the two halves are glued back. */
  function FileLine(entry: (string, string)): string {
    entry.0 + ":" + entry.1
  }

  /** `text[1:-1]`: without the first and last character, empty when shorter than two. */
  function Unquote(text: string): string {
    if |text| < 2 then "" else text[1..|text| - 1]
  }

  /** The file record `validate_config` builds from one line `FileName,S3Url,"Description"` or
      `FileName,S3Url,"Description",FileSizeInBytes`, keys in the order it sets them. */
  function FileInput(configFile: string, line: string): Result<Dict, Error> {
    var parts := Split(line, ',');
    if |parts| < 3 then Failure(Raised(FileLineMessage(configFile)))
    else if |parts| == 4 then
      match ParseInt(parts[3])
      case None => Failure(Raised(FileSizeMessage))
      case Some(size) =>
        Success([("filesizeinbytes", JInt(size)), ("filename", JStr(parts[0])), ("s3url", JStr(parts[1]))])
    else if |parts| == 3 then
      Success([("description", JStr(Unquote(parts[2]))), ("filename", JStr(parts[0])), ("s3url", JStr(parts[1]))])
    else
      Success([("filename", JStr(parts[0])), ("s3url", JStr(parts[1]))])
  }

  /** The file records of a whole `[CFS_FILES]` section, in section order; the first bad line
      raises. */
  function FileInputs(configFile: string, entries: Section): Result<seq<Json>, Error>
    decreases |entries|
  {
    if entries == [] then Success([])
    else
      match FileInput(configFile, FileLine(entries[0]))
      case Failure(e) => Failure(e)
      case Success(record) =>
        match FileInputs(configFile, entries[1..])
        case Failure(e) => Failure(e)
        case Success(rest) => Success([JObj(record)] + rest)
  }

  /** Writes each option of a section into the request map, in order. */
  function CopyAll(fields: Dict, items: Section): Dict
    decreases |items|
  {
    if items == [] then fields else CopyAll(Set(fields, items[0].0, JStr(items[0].1)), items[1..])
  }

  /** `validate_config` on a parsed `config.ini` named `configFile`: the request map it leaves
      and the exception it raises, if any. */
  function ConfigEffect(configFile: string, config: Config, fields: Dict): (Dict, Option<Error>) {
    match GetSection(config, ConfigKey)
    case Failure(f) => (fields, Some(Builtin(f)))
    case Success(options) =>
      if !HasOption(options, "filesetName") then (fields, Some(Raised(MissingFilesetMessage(configFile))))
      else
        var copied := CopyAll(fields, options);
        match GetSection(config, FilesKey)
        case Failure(f) => (copied, Some(Builtin(f)))
        case Success(entries) =>
          if |entries| > MaxFiles then (copied, Some(Raised(TooManyFilesMessage)))
          else
            match FileInputs(configFile, entries)
            case Failure(e) => (copied, Some(e))
            case Success(files) => (Set(copied, "files", JList(files)), None)
  }

  /** When a file line raises: with fewer than three comma-separated parts, and with four
      parts whose last is not a number; any other line is read. */
  lemma FileInputOutcome(configFile: string, line: string)
    ensures var parts := Split(line, ','); var r := FileInput(configFile, line);
      (r.Success? <==> |parts| >= 3 && (|parts| == 4 ==> ParseInt(parts[3]).Some?)) &&
      (|parts| < 3 ==> r == Failure(Raised(FileLineMessage(configFile)))) &&
      (|parts| == 4 && ParseInt(parts[3]).None? ==> r == Failure(Raised(FileSizeMessage)))
  {
  }

  /** What a read file line holds: file name and S3 URL are the first two parts; three parts
      set the unquoted description and no size; four set the size and no description; more
      set neither. */
  lemma FileInputFields(configFile: string, line: string)
    requires FileInput(configFile, line).Success?
    ensures var parts := Split(line, ','); var d := FileInput(configFile, line).value;
      Get(d, "filename") == Some(JStr(parts[0])) && Get(d, "s3url") == Some(JStr(parts[1])) &&
      (|parts| == 3 ==> Get(d, "description") == Some(JStr(Unquote(parts[2])))) &&
      (|parts| != 3 ==> !Has(d, "description")) &&
      (|parts| == 4 ==> Get(d, "filesizeinbytes") == Some(JInt(ParseInt(parts[3]).value))) &&
      (|parts| != 4 ==> !Has(d, "filesizeinbytes"))
  {
    var parts := Split(line, ',');
    var d := FileInput(configFile, line).value;
    if |parts| == 4 {
      assert d == [("filesizeinbytes", JInt(ParseInt(parts[3]).value)), ("filename", JStr(parts[0])), ("s3url", JStr(parts[1]))];
    } else if |parts| == 3 {
      assert d == [("description", JStr(Unquote(parts[2]))), ("filename", JStr(parts[0])), ("s3url", JStr(parts[1]))];
    } else {
      assert d == [("filename", JStr(parts[0])), ("s3url", JStr(parts[1]))];
    }
    assert d[|d| - 2].0 == "filename" && d[|d| - 1].0 == "s3url";
    GetAt(d, |d| - 2);
    GetAt(d, |d| - 1);
    GetAt(d, 0);
    GetNone(d, "description");
    GetNone(d, "filesizeinbytes");
  }

  /** A file line written from a name, a URL and a quoted description reads back as those
      three values. */
  lemma FileLineRoundTrip(configFile: string, name: string, url: string, description: string)
    requires ',' !in name && ',' !in url && ',' !in description
    ensures FileInput(configFile, name + "," + url + ",\"" + description + "\"") ==
      Success([("description", JStr(description)), ("filename", JStr(name)), ("s3url", JStr(url))])
  {
    var quoted := "\"" + description + "\"";
    assert ',' !in quoted;
    var line := name + "," + url + ",\"" + description + "\"";
    JoinThree(name, url, quoted, ",");
    assert line == Join([name, url, quoted], ",");
    SplitJoin([name, url, quoted], ',');
    assert Split(line, ',') == [name, url, quoted];
    assert Unquote(quoted) == description;
  }

  /** A file line that also carries a size reads back as the name, the URL and the size;
      its description is dropped. */
  lemma SizedFileLineRoundTrip(configFile: string, name: string, url: string, description: string, size: int)
    requires ',' !in name && ',' !in url && ',' !in description
    ensures FileInput(configFile, name + "," + url + "," + description + "," + IntToString(size)) ==
      Success([("filesizeinbytes", JInt(size)), ("filename", JStr(name)), ("s3url", JStr(url))])
  {
    var digits := IntToString(size);
    assert ',' !in digits by {
      if size < 0 {
        assert digits == "-" + NatToString(-size);
      }
    }
    JoinFour(name, url, description, digits, ",");
    SplitJoin([name, url, description, digits], ',');
    ParseIntRoundTrip(size);
  }

  /** A section that reads without error gives one record per line, in section order. */
  lemma {:induction false} FileInputsInOrder(configFile: string, entries: Section)
    ensures var r := FileInputs(configFile, entries);
      r.Success? ==>
        |r.value| == |entries| &&
        forall i :: 0 <= i < |entries| ==>
          FileInput(configFile, FileLine(entries[i])).Success? &&
          r.value[i] == JObj(FileInput(configFile, FileLine(entries[i])).value)
    decreases |entries|
  {
    if entries != [] && FileInputs(configFile, entries).Success? {
      FileInputsInOrder(configFile, entries[1..]);
      forall i | 1 <= i < |entries| ensures entries[i] == entries[1..][i - 1] { }
    }
  }

  /** With unique option names, every option of the section is in the request map with its
      text and every other key is as before. */
  lemma {:induction false} CopyAllCopies(fields: Dict, items: Section)
    requires UniqueOptions(items)
    ensures forall i :: 0 <= i < |items| ==> Get(CopyAll(fields, items), items[i].0) == Some(JStr(items[i].1))
    ensures forall k :: k !in OptionNames(items) ==> Get(CopyAll(fields, items), k) == Get(fields, k)
    decreases |items|
  {
    if items != [] {
      var (key, value) := items[0];
      var next := Set(fields, key, JStr(value));
      CopyAllCopies(next, items[1..]);
      assert OptionNames(items) == [key] + OptionNames(items[1..]);
      assert key !in OptionNames(items[1..]) by {
        forall j | 0 <= j < |items[1..]| ensures items[1..][j].0 != key {
          assert items[1..][j] == items[j + 1];
        }
      }
      forall k ensures Get(next, k) == if k == key then Some(JStr(value)) else Get(fields, k) {
        GetSet(fields, key, JStr(value), k);
      }
      forall i | 1 <= i < |items| ensures items[i] == items[1..][i - 1] { }
    }
  }

  /** `validate_config` succeeds exactly when `[CFS_CONFIG]` names the file set, `[CFS_FILES]`
      has at most ten lines and every line reads; it then leaves every `[CFS_CONFIG]` option
      and the list of file records in the request map. More than ten lines always raise, after
      the `[CFS_CONFIG]` options were copied. */
  lemma ConfigOutcome(configFile: string, config: Config, fields: Dict)
    requires ConfigKey in config ==> UniqueOptions(config[ConfigKey])
    ensures var (f, err) := ConfigEffect(configFile, config, fields);
      (err.None? <==>
        ConfigKey in config && HasOption(config[ConfigKey], "filesetName") && FilesKey in config &&
        |config[FilesKey]| <= MaxFiles && FileInputs(configFile, config[FilesKey]).Success?) &&
      (err.None? ==>
        Get(f, "files") == Some(JList(FileInputs(configFile, config[FilesKey]).value)) &&
        forall i :: 0 <= i < |config[ConfigKey]| && config[ConfigKey][i].0 != "files" ==>
          Get(f, config[ConfigKey][i].0) == Some(JStr(config[ConfigKey][i].1))) &&
      (ConfigKey in config && HasOption(config[ConfigKey], "filesetName") && FilesKey in config &&
       |config[FilesKey]| > MaxFiles ==>
        f == CopyAll(fields, config[ConfigKey]) && err == Some(Raised(TooManyFilesMessage)))
  {
    var (f, err) := ConfigEffect(configFile, config, fields);
    if err.None? {
      var options := config[ConfigKey];
      var copied := CopyAll(fields, options);
      CopyAllCopies(fields, options);
      var files := FileInputs(configFile, config[FilesKey]).value;
      forall k ensures Get(f, k) == if k == "files" then Some(JList(files)) else Get(copied, k) {
        GetSet(copied, "files", JList(files), k);
      }
    }
  }

  // ---------------------------------------------------------------------------------------
  // validate_argument
  // ---------------------------------------------------------------------------------------

  /** The command-line options `validate_argument` reads; `None` is an option not given. */
  datatype Arguments = Arguments(
    filesetname: Option<string>,
    filename: Option<string>,
    s3url: Option<string>,
    rolearn: Option<string>,
    attributes: Option<string>,
    contentfrom: Option<string>,
    contentto: Option<string>,
    availablefrom: Option<string>,
    availableto: Option<string>,
    description: Option<string>,
    filesizeinbytes: Option<string>)

  /** `user_request[key] = value` when the option was given. */
  function SetGiven(fields: Dict, key: string, value: Option<string>): Dict {
    if value.Some? then Set(fields, key, JStr(value.value)) else fields
  }

  lemma GetSetGiven(fields: Dict, key: string, value: Option<string>, k: string)
    ensures Get(SetGiven(fields, key, value), k) == if k == key && value.Some? then Some(JStr(value.value)) else Get(fields, k)
  {
    if value.Some? {
      GetSet(fields, key, JStr(value.value), k);
    }
  }

  /** The value given for one of the five plain optional options, by its key. */
  function GivenOption(args: Arguments, key: string): Option<string> {
    if key == "contentfrom" then args.contentfrom
    else if key == "contentto" then args.contentto
    else if key == "availablefrom" then args.availablefrom
    else if key == "availableto" then args.availableto
    else if key == "description" then args.description
    else None
  }

  /** The five plain optional options, copied in the order `validate_argument` tests them. */
  function CopyOptionalArguments(args: Arguments, fields: Dict): Dict {
    var f := SetGiven(fields, "contentfrom", args.contentfrom);
    var f := SetGiven(f, "contentto", args.contentto);
    var f := SetGiven(f, "availablefrom", args.availablefrom);
    var f := SetGiven(f, "availableto", args.availableto);
    SetGiven(f, "description", args.description)
  }

  /** The three required options of `validate_argument`, each written as soon as it is
      found; the first one missing raises. */
  function RequiredArgumentsEffect(args: Arguments, fields: Dict): (Dict, Option<Error>) {
    if args.filesetname.None? then (fields, Some(Raised(MissingFilesetArgument)))
    else
      var f1 := Set(fields, "filesetname", JStr(args.filesetname.value));
      if args.filename.None? then (f1, Some(Raised(MissingFilenameArgument)))
      else
        var f2 := Set(f1, "filename", JStr(args.filename.value));
        if args.s3url.None? then (f2, Some(Raised(MissingS3UrlArgument)))
        else (Set(f2, "s3url", JStr(args.s3url.value)), None)
  }

  /** The optional options of `validate_argument`: attributes, the five plain ones, then the
      size, which raises when it is not a number. */
  function OptionalArgumentsEffect(args: Arguments, fields: Dict): (Dict, Option<Error>) {
    var attrs := if args.attributes.Some? then Attributes(ItemParts(args.attributes.value)) else Success([]);
    if attrs.Failure? then (fields, Some(Builtin(attrs.error)))
    else
      var f1 := if args.attributes.Some? then Set(fields, "attributes", JList(attrs.value)) else fields;
      var f2 := CopyOptionalArguments(args, f1);
      if args.filesizeinbytes.None? then (f2, None)
      else
        match ParseInt(args.filesizeinbytes.value)
        case None => (f2, Some(Raised(FileSizeMessage)))
        case Some(size) => (Set(f2, "filesizeinbytes", JInt(size)), None)
  }

  /** `validate_argument`: the request map it leaves and the exception it raises, if any. */
  function ArgumentEffect(args: Arguments, fields: Dict): (Dict, Option<Error>) {
    var (f, err) := RequiredArgumentsEffect(args, fields);
    if err.Some? then (f, err) else OptionalArgumentsEffect(args, f)
  }

  /** The optional copies change only the five keys they are given, and only when given. */
  lemma GetCopyOptionalArguments(args: Arguments, fields: Dict, k: string)
    ensures Get(CopyOptionalArguments(args, fields), k) ==
      if k in ["contentfrom", "contentto", "availablefrom", "availableto", "description"] && GivenOption(args, k).Some?
      then Some(JStr(GivenOption(args, k).value))
      else Get(fields, k)
  {
    var f1 := SetGiven(fields, "contentfrom", args.contentfrom);
    var f2 := SetGiven(f1, "contentto", args.contentto);
    var f3 := SetGiven(f2, "availablefrom", args.availablefrom);
    var f4 := SetGiven(f3, "availableto", args.availableto);
    GetSetGiven(fields, "contentfrom", args.contentfrom, k);
    GetSetGiven(f1, "contentto", args.contentto, k);
    GetSetGiven(f2, "availablefrom", args.availablefrom, k);
    GetSetGiven(f3, "availableto", args.availableto, k);
    GetSetGiven(f4, "description", args.description, k);
  }

  /** The required options are checked in the order file set, file name, S3 URL: the first
      one missing raises its own message, after the ones before it were copied. */
  lemma RequiredArgumentsInOrder(args: Arguments, fields: Dict)
    ensures var (f, err) := ArgumentEffect(args, fields);
      (err.None? ==> args.filesetname.Some? && args.filename.Some? && args.s3url.Some?) &&
      (args.filesetname.None? ==> f == fields && err == Some(Raised(MissingFilesetArgument))) &&
      (args.filesetname.Some? && args.filename.None? ==>
        Get(f, "filesetname") == Some(JStr(args.filesetname.value)) && err == Some(Raised(MissingFilenameArgument))) &&
      (args.filesetname.Some? && args.filename.Some? && args.s3url.None? ==>
        Get(f, "filesetname") == Some(JStr(args.filesetname.value)) &&
        Get(f, "filename") == Some(JStr(args.filename.value)) && err == Some(Raised(MissingS3UrlArgument)))
  {
    if args.filesetname.Some? {
      var f1 := Set(fields, "filesetname", JStr(args.filesetname.value));
      GetSet(fields, "filesetname", JStr(args.filesetname.value), "filesetname");
      if args.filename.Some? {
        GetSet(f1, "filename", JStr(args.filename.value), "filesetname");
        GetSet(f1, "filename", JStr(args.filename.value), "filename");
      }
    }
  }

  /** After the required options: each is in the map and every other key is as before. */
  lemma RequiredArgumentsCopied(args: Arguments, fields: Dict, k: string)
    ensures var (f, err) := RequiredArgumentsEffect(args, fields);
      err.None? ==>
        Get(f, k) ==
          if k == "s3url" then Some(JStr(args.s3url.value))
          else if k == "filename" then Some(JStr(args.filename.value))
          else if k == "filesetname" then Some(JStr(args.filesetname.value))
          else Get(fields, k)
  {
    if args.filesetname.Some? && args.filename.Some? && args.s3url.Some? {
      var f1 := Set(fields, "filesetname", JStr(args.filesetname.value));
      var f2 := Set(f1, "filename", JStr(args.filename.value));
      GetSet(fields, "filesetname", JStr(args.filesetname.value), k);
      GetSet(f1, "filename", JStr(args.filename.value), k);
      GetSet(f2, "s3url", JStr(args.s3url.value), k);
    }
  }

  /** After the optional options: the given ones are in the map (attributes parsed, size as a
      number), and every other key is as before. */
  lemma OptionalArgumentsCopied(args: Arguments, fields: Dict, k: string)
    ensures var (f, err) := OptionalArgumentsEffect(args, fields);
      err.None? ==>
        Get(f, k) ==
          if k == "filesizeinbytes" && args.filesizeinbytes.Some? then Some(JInt(ParseInt(args.filesizeinbytes.value).value))
          else if k in ["contentfrom", "contentto", "availablefrom", "availableto", "description"] && GivenOption(args, k).Some?
          then Some(JStr(GivenOption(args, k).value))
          else if k == "attributes" && args.attributes.Some? then Some(JList(Attributes(ItemParts(args.attributes.value)).value))
          else Get(fields, k)
  {
    var (f, err) := OptionalArgumentsEffect(args, fields);
    if err.None? {
      var attrs := if args.attributes.Some? then Attributes(ItemParts(args.attributes.value)) else Success([]);
      var f1 := if args.attributes.Some? then Set(fields, "attributes", JList(attrs.value)) else fields;
      var f2 := CopyOptionalArguments(args, f1);
      if args.attributes.Some? {
        GetSet(fields, "attributes", JList(attrs.value), k);
      }
      GetCopyOptionalArguments(args, f1, k);
      if args.filesizeinbytes.Some? {
        GetSet(f2, "filesizeinbytes", JInt(ParseInt(args.filesizeinbytes.value).value), k);
      }
    }
  }

  /** A key `validate_argument` never writes: whatever the outcome, `rolearn` in the request
      map is as before, so a role given on the command line is not used. */
  lemma RoleArnNeverCopied(args: Arguments, fields: Dict)
    ensures Get(ArgumentEffect(args, fields).0, "rolearn") == Get(fields, "rolearn")
  {
    var (f, err) := RequiredArgumentsEffect(args, fields);
    RequiredArgumentsFrame(args, fields, "rolearn");
    if err.None? {
      OptionalArgumentsFrame(args, f, "rolearn");
    }
  }

  /** The required options write only their own three keys, whatever the outcome. */
  lemma RequiredArgumentsFrame(args: Arguments, fields: Dict, k: string)
    requires k != "filesetname" && k != "filename" && k != "s3url"
    ensures Get(RequiredArgumentsEffect(args, fields).0, k) == Get(fields, k)
  {
    if args.filesetname.Some? {
      var f1 := Set(fields, "filesetname", JStr(args.filesetname.value));
      GetSet(fields, "filesetname", JStr(args.filesetname.value), k);
      if args.filename.Some? {
        var f2 := Set(f1, "filename", JStr(args.filename.value));
        GetSet(f1, "filename", JStr(args.filename.value), k);
        if args.s3url.Some? {
          GetSet(f2, "s3url", JStr(args.s3url.value), k);
        }
      }
    }
  }

  /** The optional options write only their own keys, whatever the outcome. */
  lemma OptionalArgumentsFrame(args: Arguments, fields: Dict, k: string)
    requires k !in ["attributes", "contentfrom", "contentto", "availablefrom", "availableto", "description", "filesizeinbytes"]
    ensures Get(OptionalArgumentsEffect(args, fields).0, k) == Get(fields, k)
  {
    var attrs := if args.attributes.Some? then Attributes(ItemParts(args.attributes.value)) else Success([]);
    if attrs.Success? {
      var f1 := if args.attributes.Some? then Set(fields, "attributes", JList(attrs.value)) else fields;
      var f2 := CopyOptionalArguments(args, f1);
      GetSet(fields, "attributes", JList(attrs.value), k);
      GetCopyOptionalArguments(args, f1, k);
      if args.filesizeinbytes.Some? && ParseInt(args.filesizeinbytes.value).Some? {
        GetSet(f2, "filesizeinbytes", JInt(ParseInt(args.filesizeinbytes.value).value), k);
      }
    }
  }

  /** Without an exception, `validate_argument` leaves every given option in the request map
      (the required ones as text, the attributes parsed, the size as a number) and every other
      key as it was. */
  lemma ArgumentsCopied(args: Arguments, fields: Dict, k: string)
    ensures var (f, err) := ArgumentEffect(args, fields);
      err.None? ==>
        Get(f, k) ==
          if k == "filesizeinbytes" && args.filesizeinbytes.Some? then Some(JInt(ParseInt(args.filesizeinbytes.value).value))
          else if k in ["contentfrom", "contentto", "availablefrom", "availableto", "description"] && GivenOption(args, k).Some?
          then Some(JStr(GivenOption(args, k).value))
          else if k == "attributes" && args.attributes.Some? then Some(JList(Attributes(ItemParts(args.attributes.value)).value))
          else if k == "s3url" then Some(JStr(args.s3url.value))
          else if k == "filename" then Some(JStr(args.filename.value))
          else if k == "filesetname" then Some(JStr(args.filesetname.value))
          else Get(fields, k)
  {
    var (f1, err1) := RequiredArgumentsEffect(args, fields);
    if err1.None? {
      RequiredArgumentsCopied(args, fields, k);
      OptionalArgumentsCopied(args, f1, k);
    }
  }

  /** The exceptions of the optional half: an attribute item without `=` raises `IndexError`
      before anything optional is written; a size `int()` rejects raises its own message after
      the attributes and the plain options were written; nothing else raises. */
  lemma OptionalArgumentsErrors(args: Arguments, fields: Dict, k: string)
    ensures var (f, err) := OptionalArgumentsEffect(args, fields);
      var badAttributes := args.attributes.Some? && Attributes(ItemParts(args.attributes.value)).Failure?;
      var badSize := args.filesizeinbytes.Some? && ParseInt(args.filesizeinbytes.value).None?;
      (err.None? <==> !badAttributes && !badSize) &&
      (badAttributes ==> f == fields && err == Some(Builtin(IndexOutOfRange))) &&
      (!badAttributes && badSize ==>
        err == Some(Raised(FileSizeMessage)) &&
        Get(f, k) ==
          if k in ["contentfrom", "contentto", "availablefrom", "availableto", "description"] && GivenOption(args, k).Some?
          then Some(JStr(GivenOption(args, k).value))
          else if k == "attributes" && args.attributes.Some? then Some(JList(Attributes(ItemParts(args.attributes.value)).value))
          else Get(fields, k))
  {
    var attrs := if args.attributes.Some? then Attributes(ItemParts(args.attributes.value)) else Success([]);
    if attrs.Success? {
      var f1 := if args.attributes.Some? then Set(fields, "attributes", JList(attrs.value)) else fields;
      if args.attributes.Some? {
        GetSet(fields, "attributes", JList(attrs.value), k);
      }
      GetCopyOptionalArguments(args, f1, k);
    }
  }

  /** `validate_argument` raises exactly when a required option is missing, an attribute item
      has no `=`, or the size is not a number, and the checks run in that order. */
  lemma ArgumentErrors(args: Arguments, fields: Dict)
    ensures var (f, err) := ArgumentEffect(args, fields); var (f0, err0) := RequiredArgumentsEffect(args, fields);
      var required := args.filesetname.Some? && args.filename.Some? && args.s3url.Some?;
      var badAttributes := args.attributes.Some? && Attributes(ItemParts(args.attributes.value)).Failure?;
      var badSize := args.filesizeinbytes.Some? && ParseInt(args.filesizeinbytes.value).None?;
      (err.None? <==> required && !badAttributes && !badSize) &&
      (!required ==> (f, err) == (f0, err0)) &&
      (required && badAttributes ==> f == f0 && err == Some(Builtin(IndexOutOfRange))) &&
      (required && !badAttributes && badSize ==> err == Some(Raised(FileSizeMessage)))
  {
    RequiredArgumentsInOrder(args, fields);
    var (f0, err0) := RequiredArgumentsEffect(args, fields);
    if err0.None? {
      OptionalArgumentsErrors(args, f0, "");
    }
  }

  // ---------------------------------------------------------------------------------------
  // The caller's request map, filled in place
  // ---------------------------------------------------------------------------------------

  /** The body of the `[CFS_FILES]` loop of `validate_config`: one line to one file record,
      built key by key as the loop does. */
  method ReadFileLine(configFile: string, line: string) returns (r: Result<Dict, Error>)
    ensures r == FileInput(configFile, line)
  {
    var fileList := Split(line, ',');
    var fileInput: Dict := [];
    if |fileList| < 3 {
      return Failure(Raised(FileLineMessage(configFile)));
    }
    if |fileList| == 4 {
      var size := ParseInt(fileList[3]);
      if size.None? {
        return Failure(Raised(FileSizeMessage));
      }
      fileInput := Set(fileInput, "filesizeinbytes", JInt(size.value));
    }
    if |fileList| == 3 {
      fileInput := Set(fileInput, "description", JStr(Unquote(fileList[2])));
    }
    ghost var first := fileInput;
    assert |first| <= 1 && (first != [] ==> first[0].0 != "filename" && first[0].0 != "s3url");
    assert !Has(first, "filename") && !Has(first, "s3url") by {
      GetNone(first, "filename");
      GetNone(first, "s3url");
    }
    SetAbsent(first, "filename", JStr(fileList[0]));
    fileInput := Set(fileInput, "filename", JStr(fileList[0]));
    assert !Has(fileInput, "s3url") by {
      GetSet(first, "filename", JStr(fileList[0]), "s3url");
    }
    SetAbsent(fileInput, "s3url", JStr(fileList[1]));
    fileInput := Set(fileInput, "s3url", JStr(fileList[1]));
    ghost var tail := [("filename", JStr(fileList[0])), ("s3url", JStr(fileList[1]))];
    assert fileInput == first + tail;
    if |fileList| == 4 {
      assert fileInput == [("filesizeinbytes", JInt(ParseInt(fileList[3]).value))] + tail;
      assert fileInput == [("filesizeinbytes", JInt(ParseInt(fileList[3]).value)), ("filename", JStr(fileList[0])), ("s3url", JStr(fileList[1]))];
    } else if |fileList| == 3 {
      assert fileInput == [("description", JStr(Unquote(fileList[2])))] + tail;
      assert fileInput == [("description", JStr(Unquote(fileList[2]))), ("filename", JStr(fileList[0])), ("s3url", JStr(fileList[1]))];
    } else {
      assert fileInput == tail;
    }
    return Success(fileInput);
  }

  /** The `[CFS_FILES]` loop of `validate_config`: the records of the lines, in order, or
      the error of the first line that does not read. */
  method ReadFiles(configFile: string, entries: Section) returns (r: Result<seq<Json>, Error>)
    ensures r == FileInputs(configFile, entries)
  {
    var files: seq<Json> := [];
    var j := 0;
    assert entries[j..] == entries;
    ghost var whole := FileInputs(configFile, entries);
    assert whole.Success? ==> [] + whole.value == whole.value;
    while j < |entries|
      invariant 0 <= j <= |entries|
      invariant FileInputs(configFile, entries) == Prepend(files, FileInputs(configFile, entries[j..]))
    {
      assert entries[j..][0] == entries[j] && entries[j..][1..] == entries[j + 1..];
      var fileInput := ReadFileLine(configFile, FileLine(entries[j]));
      if fileInput.Failure? {
        return Failure(fileInput.error);
      }
      ghost var rest := FileInputs(configFile, entries[j + 1..]);
      assert rest.Success? ==> (files + [JObj(fileInput.value)]) + rest.value == files + ([JObj(fileInput.value)] + rest.value);
      files := files + [JObj(fileInput.value)];
      j := j + 1;
    }
    assert entries[j..] == [];
    assert files + [] == files;
    return Success(files);
  }

  /** The `user_request` dict the three validators receive and fill in place. */
  class Request {
    var fields: Dict

    constructor()
      ensures fields == []
    {
      fields := [];
    }

    /** `validate_global_config(user_request)` on the parsed `global.ini`. */
    method ValidateGlobalConfig(config: Config) returns (err: Option<Error>)
      modifies this
      ensures (fields, err) == GlobalConfigEffect(config, old(fields))
    {
      var rdp := GetSection(config, RdpKey);
      if rdp.Failure? {
        return Some(Builtin(rdp.error));
      }
      if !HasOption(rdp.value, "username") || !HasOption(rdp.value, "password") || !HasOption(rdp.value, "clientId") {
        return Some(Raised(MissingCredentialsMessage));
      }
      var global := GetSection(config, GlobalKey);
      if global.Failure? {
        return Some(Builtin(global.error));
      }
      if !HasOption(global.value, "bucketName") || !HasOption(global.value, "packageId") {
        return Some(Raised(MissingBucketMessage));
      }
      var items := global.value;
      var i := 0;
      while i < |items|
        invariant 0 <= i <= |items|
        invariant CopyGlobal(fields, items[i..]) == CopyGlobal(old(fields), items)
      {
        var (key, value) := items[i];
        assert items[i..][0] == items[i] && items[i..][1..] == items[i + 1..];
        fields := Set(fields, key, JStr(value));
        if value == "" {
          return Some(Raised(EmptyGlobalMessage(key)));
        }
        if key == "attributes" {
          var attributes := ParseAttributes(value);
          if attributes.Failure? {
            return Some(Builtin(attributes.error));
          }
          fields := Set(fields, key, JList(attributes.value));
        }
        i := i + 1;
      }
      assert items[i..] == [];
      return None;
    }

    /** `for key, value in section.items(): user_request[key] = value`. */
    method CopyOptions(items: Section)
      modifies this
      ensures fields == CopyAll(old(fields), items)
    {
      var i := 0;
      while i < |items|
        invariant 0 <= i <= |items|
        invariant CopyAll(fields, items[i..]) == CopyAll(old(fields), items)
      {
        assert items[i..][0] == items[i] && items[i..][1..] == items[i + 1..];
        fields := Set(fields, items[i].0, JStr(items[i].1));
        i := i + 1;
      }
      assert items[i..] == [];
    }

    /** `validate_config(config_file, user_request)` on the parsed `config_file`. */
    method ValidateConfig(configFile: string, config: Config) returns (err: Option<Error>)
      modifies this
      ensures (fields, err) == ConfigEffect(configFile, config, old(fields))
    {
      var options := GetSection(config, ConfigKey);
      if options.Failure? {
        return Some(Builtin(options.error));
      }
      if !HasOption(options.value, "filesetName") {
        return Some(Raised(MissingFilesetMessage(configFile)));
      }
      CopyOptions(options.value);
      var section := GetSection(config, FilesKey);
      if section.Failure? {
        return Some(Builtin(section.error));
      }
      var entries := section.value;
      if |entries| > MaxFiles {
        return Some(Raised(TooManyFilesMessage));
      }
      var files := ReadFiles(configFile, entries);
      if files.Failure? {
        return Some(files.error);
      }
      fields := Set(fields, "files", JList(files.value));
      return None;
    }

    /** The required-option half of `validate_argument`. */
    method SetRequiredArguments(args: Arguments) returns (err: Option<Error>)
      modifies this
      ensures (fields, err) == RequiredArgumentsEffect(args, old(fields))
    {
      if args.filesetname.None? {
        return Some(Raised(MissingFilesetArgument));
      }
      fields := Set(fields, "filesetname", JStr(args.filesetname.value));
      if args.filename.None? {
        return Some(Raised(MissingFilenameArgument));
      }
      fields := Set(fields, "filename", JStr(args.filename.value));
      if args.s3url.None? {
        return Some(Raised(MissingS3UrlArgument));
      }
      fields := Set(fields, "s3url", JStr(args.s3url.value));
      return None;
    }

    /** The optional-option half of `validate_argument`. */
    method SetOptionalArguments(args: Arguments) returns (err: Option<Error>)
      modifies this
      ensures (fields, err) == OptionalArgumentsEffect(args, old(fields))
    {
      if args.attributes.Some? {
        var attributes := ParseAttributes(args.attributes.value);
        if attributes.Failure? {
          return Some(Builtin(attributes.error));
        }
        fields := Set(fields, "attributes", JList(attributes.value));
      }
      if args.contentfrom.Some? {
        fields := Set(fields, "contentfrom", JStr(args.contentfrom.value));
      }
      if args.contentto.Some? {
        fields := Set(fields, "contentto", JStr(args.contentto.value));
      }
      if args.availablefrom.Some? {
        fields := Set(fields, "availablefrom", JStr(args.availablefrom.value));
      }
      if args.availableto.Some? {
        fields := Set(fields, "availableto", JStr(args.availableto.value));
      }
      if args.description.Some? {
        fields := Set(fields, "description", JStr(args.description.value));
      }
      if args.filesizeinbytes.Some? {
        var size := ParseInt(args.filesizeinbytes.value);
        if size.None? {
          return Some(Raised(FileSizeMessage));
        }
        fields := Set(fields, "filesizeinbytes", JInt(size.value));
      }
      return None;
    }

    /** `validate_argument(args, user_request)`. */
    method ValidateArgument(args: Arguments) returns (err: Option<Error>)
      modifies this
      ensures (fields, err) == ArgumentEffect(args, old(fields))
    {
      err := SetRequiredArguments(args);
      if err.None? {
        err := SetOptionalArguments(args);
      }
    }
  }
}
