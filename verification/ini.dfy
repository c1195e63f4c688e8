/** What `configparser` hands the tool once an INI file is read: sections of options in
    file order. Option names are stored lower-cased, as `optionxform` leaves them, and a
    lookup lower-cases the name it is given. */
module IniFile {
  import opened Wrappers
  import opened Text
  import opened Json

  /** A section's options in file order; names already lower-cased. */
  type Section = seq<(string, string)>

  /** The sections of a file by name (section names are case-sensitive). */
  type Config = map<string, Section>

  function OptionNames(sec: Section): seq<string> {
    seq(|sec|, i requires 0 <= i < |sec| => sec[i].0)
  }

  /** `name in config[section]`. */
  predicate HasOption(sec: Section, name: string) {
    Lower(name) in OptionNames(sec)
  }

  /** `config[section][name]`, `None` standing for the `KeyError`. */
  function GetOption(sec: Section, name: string): (r: Option<string>)
    ensures r.Some? <==> HasOption(sec, name)
    ensures r.Some? ==> exists i :: 0 <= i < |sec| && sec[i] == (Lower(name), r.value)
  {
    if sec == [] then None
    else
      assert OptionNames(sec) == [sec[0].0] + OptionNames(sec[1..]);
      if sec[0].0 == Lower(name) then Some(sec[0].1)
      else
        var r := GetOption(sec[1..], name);
        assert r.Some? ==> exists i :: 0 <= i < |sec| && sec[i] == (Lower(name), r.value) by {
          if r.Some? {
            var i :| 0 <= i < |sec[1..]| && sec[1..][i] == (Lower(name), r.value);
            assert sec[i + 1] == (Lower(name), r.value);
          }
        }
        r
  }

  /** `config[name]`: a missing section is a `KeyError`. */
  function GetSection(config: Config, name: string): (r: Result<Section, Fault>)
    ensures r.Success? <==> name in config
    ensures r.Success? ==> r.value == config[name]
    ensures r.Failure? ==> r.error == KeyMissing(name)
  {
    if name in config then Success(config[name]) else Failure(KeyMissing(name))
  }

  /** Option names are unique within a section (configparser refuses duplicates). */
  predicate UniqueOptions(sec: Section) {
    forall i, j :: 0 <= i < j < |sec| ==> sec[i].0 != sec[j].0
  }
}
