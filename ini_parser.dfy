/**
 * The INI configuration reader of the scraper (class `IniParser` in
 * src/IniParser.py). The parsed file is a map from section name to a map
 * from option name to its raw string value. A property is a raw value read
 * as a comma-separated list whose items are trimmed of whitespace.
 */
module IniParser {
  import opened Wrappers
  import opened Strings

  /** One section: option name to raw value. */
  type Section = map<string, string>

  /** The whole parsed file: section name to section. */
  type Config = map<string, Section>

  /** The section holding the posting credentials and settings. */
  const Reddit: string := "Reddit"

  /** The section holding the scraper's settings, and the one `update_property` writes. */
  const GoComicsScraper: string := "GoComicsScraper"

  /** The `KeyError` that indexing a missing section or option raises. */
  datatype ConfigError =
    | MissingSection(section: string)
    | MissingKey(section: string, key: string)

  /** What `get_reddit_properties` returns: the whole list, or its one element as a plain string. */
  datatype PropertyValue = Many(values: seq<string>) | Single(value: string)

  /** The Python values `update_property` may be handed; it stores `str(value)`. */
  datatype PyValue = PyStr(s: string) | PyInt(i: int) | PyBool(b: bool) | PyNone

  /**
   * `str(value)`: a string stays as it is; an int, bool or None becomes a
   * non-empty text with no comma and no surrounding whitespace.
   */
  function Str(value: PyValue): (r: string)
    ensures value.PyStr? ==> r == value.s
    ensures value.PyInt? ==> r == IntString(value.i)
    ensures !value.PyStr? ==> |r| >= 1 && ',' !in r && NoSurroundingSpace(r)
  {
    match value
    case PyStr(s) => s
    case PyInt(i) => IntString(i)
    case PyBool(b) => if b then "True" else "False"
    case PyNone => "None"
  }

  /**
   * `[val.strip() for val in value.split(",")]`: one trimmed item per
   * comma-separated piece, so never an empty list.
   */
  function SplitValue(raw: string): (values: seq<string>)
    ensures |values| == Count(raw, ',') + 1
    ensures forall i :: 0 <= i < |values| ==> StrippedFrom(values[i], Split(raw, ',')[i])
    ensures forall i :: 0 <= i < |values| ==> ',' !in values[i] && NoSurroundingSpace(values[i])
  {
    var pieces := Split(raw, ',');
    var values := seq(|pieces|, i requires 0 <= i < |pieces| => Strip(pieces[i]));
    assert forall i :: 0 <= i < |values| ==> ',' !in values[i] by {
      forall i | 0 <= i < |values| ensures ',' !in values[i] {
        StrippedSubset(values[i], pieces[i], ',');
      }
    }
    values
  }

  /** Comma-free items without surrounding whitespace, written joined by commas, read back as themselves. */
  lemma SplitValueJoin(items: seq<string>)
    requires |items| >= 1
    requires forall i :: 0 <= i < |items| ==> ',' !in items[i] && NoSurroundingSpace(items[i])
    ensures SplitValue(Join(items, ",")) == items
  {
    SplitJoin(items, ',');
    var values := SplitValue(Join(items, ","));
    forall i | 0 <= i < |items| ensures values[i] == items[i] {
      StripUnchanged(items[i]);
    }
  }

  /**
   * `get_properties(header, property)`: indexing a missing section or
   * option raises `KeyError`; otherwise the raw value split and trimmed.
   */
  function GetProperties(config: Config, header: string, property: string): (r: Result<seq<string>, ConfigError>)
    ensures r.Success? <==> header in config && property in config[header]
    ensures header !in config ==> r == Failure(MissingSection(header))
    ensures header in config && property !in config[header] ==> r == Failure(MissingKey(header, property))
    ensures r.Success? ==> r.value == SplitValue(config[header][property]) && |r.value| >= 1
  {
    if header !in config then Failure(MissingSection(header))
    else if property !in config[header] then Failure(MissingKey(header, property))
    else Success(SplitValue(config[header][property]))
  }

  /**
   * `get_reddit_properties(property)`: the list when it has more than one
   * element, otherwise its only element.
   */
  function GetRedditProperties(config: Config, property: string): (r: Result<PropertyValue, ConfigError>)
    ensures var g := GetProperties(config, Reddit, property);
      && (r.Failure? <==> g.Failure?)
      && (r.Failure? ==> r.error == g.error)
      && (r.Success? && r.value.Many? ==> |r.value.values| >= 2 && r.value.values == g.value)
      && (r.Success? && r.value.Single? ==> g.value == [r.value.value])
  {
    var properties := GetProperties(config, Reddit, property);
    if properties.Failure? then Failure(properties.error)
    else if |properties.value| > 1 then Success(Many(properties.value))
    else
      assert properties.value == [properties.value[0]];
      Success(Single(properties.value[0]))
  }

  /**
   * The Reddit accessor fails exactly as `get_properties` does; it gives the
   * whole list exactly when the raw value holds a comma, and otherwise the
   * raw value trimmed.
   */
  lemma {:induction false} RedditPropertiesShape(config: Config, property: string)
    ensures GetRedditProperties(config, property).Failure? <==> GetProperties(config, Reddit, property).Failure?
    ensures GetRedditProperties(config, property).Failure? ==>
      GetRedditProperties(config, property).error == GetProperties(config, Reddit, property).error
    ensures GetRedditProperties(config, property).Success? ==>
      var raw := config[Reddit][property];
      var v := GetRedditProperties(config, property).value;
      && (v.Many? <==> ',' in raw)
      && (v.Many? ==> v.values == SplitValue(raw))
      && (v.Single? ==> v.value == Strip(raw))
  {
    if Reddit in config && property in config[Reddit] {
      var raw := config[Reddit][property];
      CountPositive(raw, ',');
      JoinSplit(raw, ',');
    }
  }

  /** `get_gocomics_properties(property)`: always the list, never collapsed to one string. */
  function GetGoComicsProperties(config: Config, property: string): (r: Result<seq<string>, ConfigError>)
    ensures r.Success? <==> GoComicsScraper in config && property in config[GoComicsScraper]
    ensures r.Success? ==> r.value == SplitValue(config[GoComicsScraper][property])
    ensures GoComicsScraper !in config ==> r == Failure(MissingSection(GoComicsScraper))
    ensures GoComicsScraper in config && property !in config[GoComicsScraper] ==>
      r == Failure(MissingKey(GoComicsScraper, property))
  {
    GetProperties(config, GoComicsScraper, property)
  }

  /**
   * The configuration after `update_property(property, value)`: fails with
   * `KeyError` when there is no GoComicsScraper section; otherwise that
   * section's option `property` holds `str(value)` and every other option
   * and section is as before.
   */
  function SetProperty(config: Config, property: string, value: PyValue): (r: Result<Config, ConfigError>)
    ensures r.Failure? <==> GoComicsScraper !in config
    ensures r.Failure? ==> r.error == MissingSection(GoComicsScraper)
    ensures r.Success? ==>
      && r.value.Keys == config.Keys
      && (forall h :: h in config && h != GoComicsScraper ==> r.value[h] == config[h])
      && r.value[GoComicsScraper].Keys == config[GoComicsScraper].Keys + {property}
      && r.value[GoComicsScraper][property] == Str(value)
      && (forall k :: k in config[GoComicsScraper] && k != property ==>
            r.value[GoComicsScraper][k] == config[GoComicsScraper][k])
  {
    if GoComicsScraper !in config then Failure(MissingSection(GoComicsScraper))
    else Success(config[GoComicsScraper := config[GoComicsScraper][property := Str(value)]])
  }

  /** An update changes no read of any other option or section. */
  lemma UpdateKeepsOtherReads(config: Config, property: string, value: PyValue, header: string, key: string)
    requires SetProperty(config, property, value).Success?
    requires header != GoComicsScraper || key != property
    ensures GetProperties(SetProperty(config, property, value).value, header, key) == GetProperties(config, header, key)
  {
  }

  /**
   * Writing a value and reading it back through `get_gocomics_properties`
   * gives the one-element list `[str(value)]`, provided `str(value)` has no
   * comma and no surrounding whitespace; every non-string value qualifies.
   */
  lemma {:induction false} UpdateThenRead(config: Config, property: string, value: PyValue)
    requires GoComicsScraper in config
    requires value.PyStr? ==> ',' !in value.s && NoSurroundingSpace(value.s)
    ensures SetProperty(config, property, value).Success?
    ensures GetGoComicsProperties(SetProperty(config, property, value).value, property) == Success([Str(value)])
  {
    var s := Str(value);
    SplitNoSeparator(s, ',');
    StripUnchanged(s);
    assert SplitValue(s) == [Strip(s)];
  }

  /** The parser object: the configuration file's name and its parsed contents. */
  class IniParser {
    const configFile: string
    var config: Config

    /**
     * `IniParser(config)`: `contents` stands for what reading the file gave;
     * reading files is outside this model.
     */
    constructor (configFile: string, contents: Config)
      ensures this.configFile == configFile && config == contents
    {
      this.configFile := configFile;
      config := contents;
    }

    /**
     * `update_property(property, value)`: stores `str(value)` under
     * `property` in the GoComicsScraper section, or raises `KeyError` and
     * changes nothing when that section is missing.
     */
    method UpdateProperty(property: string, value: PyValue) returns (raised: Outcome<ConfigError>)
      modifies this
      ensures SetProperty(old(config), property, value).Success? ==>
        raised == Pass && config == SetProperty(old(config), property, value).value
      ensures SetProperty(old(config), property, value).Failure? ==>
        raised == Fail(SetProperty(old(config), property, value).error) && config == old(config)
    {
      if GoComicsScraper !in config {
        return Fail(MissingSection(GoComicsScraper));
      }
      config := config[GoComicsScraper := config[GoComicsScraper][property := Str(value)]];
      raised := Pass;
    }
  }
}
