/** The settings object of config_generated.go: three option slots, each
    with a default, a value and a "modified" flag, a builder, and the
    options that set one slot each. */
module Configuration {
  import W = Wrappers

  /** The state of one ConfigItem as a value. */
  datatype Slot<T> = Slot(modified: bool, value: T, defaultValue: T) {
    /** What `Get` returns: the value once set, the default before. */
    function Get(): T {
      if modified then value else defaultValue
    }

    /** The state `Set(v)` leaves behind. */
    function Set(v: T): Slot<T> {
      Slot(true, v, defaultValue)
    }
  }

  /** `ConfigItem[T]`. The value field starts as T's zero value, which is
      never observed: `Get` returns the default until `Set` is called. */
  class ConfigItem<T(0)> {
    var modified: bool
    var value: T
    var defaultValue: T

    function View(): Slot<T>
      reads this
    {
      Slot(modified, value, defaultValue)
    }

    /** The value once Set has been called, the default before. */
    function Get(): (g: T)
      reads this
      ensures modified ==> g == value
      ensures !modified ==> g == defaultValue
    {
      View().Get()
    }

    /** The default, which is what Get returns until the item is set. */
    function Default(): (d: T)
      reads this
      ensures modified || d == Get()
    {
      defaultValue
    }

    /** Whether Set has been called; until then Get is the default. */
    function IsModified(): (m: bool)
      reads this
      ensures !m ==> Get() == Default()
    {
      modified
    }

    /** `NewConfigItem(defaultValue)`. */
    constructor (defaultValue: T)
      ensures !IsModified() && Default() == defaultValue && Get() == defaultValue
    {
      modified := false;
      this.defaultValue := defaultValue;
    }

    /** `Set(value)`: marks the item modified and stores the value; the
        default is kept. A later Set overrides an earlier one. */
    method Set(value: T)
      modifies this
      ensures View() == old(View()).Set(value)
      ensures IsModified() && Get() == value && Default() == old(Default())
    {
      modified := true;
      this.value := value;
    }
  }

  /** The three options the package can build: `WithSuccessStatusCode`,
      `WithMaxRequestBodyBytes` and `WithResponseContentCharset`. */
  datatype Option =
    | WithSuccessStatusCode(statusCode: int)
    | WithMaxRequestBodyBytes(maxBytes: int)
    | WithResponseContentCharset(charset: string)

  /** The state of a Config as a value. */
  datatype Settings = Settings(
    successStatusCode: Slot<int>,
    maxRequestBodyBytes: Slot<int>,
    responseContentCharset: Slot<string>)

  /** What calling one option on a Config does: `Set` on its own slot. */
  function ApplyOption(s: Settings, o: Option): Settings {
    match o
    case WithSuccessStatusCode(v) => s.(successStatusCode := s.successStatusCode.Set(v))
    case WithMaxRequestBodyBytes(v) => s.(maxRequestBodyBytes := s.maxRequestBodyBytes.Set(v))
    case WithResponseContentCharset(v) => s.(responseContentCharset := s.responseContentCharset.Set(v))
  }

  /** What `Apply(opts...)` does: the options in list order. */
  function ApplyAll(s: Settings, opts: seq<Option>): Settings
    decreases |opts|
  {
    if opts == [] then s else ApplyAll(ApplyOption(s, opts[0]), opts[1..])
  }

  lemma {:induction false} ApplyAllSnoc(s: Settings, opts: seq<Option>, o: Option)
    ensures ApplyAll(s, opts + [o]) == ApplyOption(ApplyAll(s, opts), o)
    decreases |opts|
  {
    if opts == [] {
      assert [] + [o] == [o];
    } else {
      assert (opts + [o])[1..] == opts[1..] + [o];
      ApplyAllSnoc(ApplyOption(s, opts[0]), opts[1..], o);
    }
  }

  /** The slot an option writes, if it writes the status code / the body
      limit / the charset. */
  function StatusCodeOf(o: Option): W.Option<int> {
    if o.WithSuccessStatusCode? then W.Some(o.statusCode) else W.None
  }

  function MaxBytesOf(o: Option): W.Option<int> {
    if o.WithMaxRequestBodyBytes? then W.Some(o.maxBytes) else W.None
  }

  function CharsetOf(o: Option): W.Option<string> {
    if o.WithResponseContentCharset? then W.Some(o.charset) else W.None
  }

  /** The value of the last option in `opts` that `pick` selects. */
  function LastSet<V>(opts: seq<Option>, pick: Option -> W.Option<V>): W.Option<V>
    decreases |opts|
  {
    if opts == [] then W.None
    else if pick(opts[|opts| - 1]).Some? then pick(opts[|opts| - 1])
    else LastSet(opts[..|opts| - 1], pick)
  }

  /** A slot after its last write, if there was one. */
  function Override<V>(slot: Slot<V>, last: W.Option<V>): Slot<V> {
    match last
    case Some(v) => slot.Set(v)
    case None => slot
  }

  /** Last write wins: after a list of options each slot holds the value of
      the last option for it and is marked modified, or is untouched if no
      option names it; defaults never change. */
  lemma {:induction false} LastOptionWins(s: Settings, opts: seq<Option>)
    ensures ApplyAll(s, opts).successStatusCode == Override(s.successStatusCode, LastSet(opts, StatusCodeOf))
    ensures ApplyAll(s, opts).maxRequestBodyBytes == Override(s.maxRequestBodyBytes, LastSet(opts, MaxBytesOf))
    ensures ApplyAll(s, opts).responseContentCharset == Override(s.responseContentCharset, LastSet(opts, CharsetOf))
    decreases |opts|
  {
    if opts != [] {
      var init, o := opts[..|opts| - 1], opts[|opts| - 1];
      assert opts == init + [o];
      ApplyAllSnoc(s, init, o);
      LastOptionWins(s, init);
    }
  }

  /** Each option changes its own slot and leaves the other two, value and
      flag alike, as they were. */
  lemma OptionChangesOneSlot(s: Settings, o: Option)
    ensures ApplyOption(s, o).successStatusCode == Override(s.successStatusCode, StatusCodeOf(o))
    ensures ApplyOption(s, o).maxRequestBodyBytes == Override(s.maxRequestBodyBytes, MaxBytesOf(o))
    ensures ApplyOption(s, o).responseContentCharset == Override(s.responseContentCharset, CharsetOf(o))
  {
  }

  /** `Config`: three items, created by `Build` and never replaced. */
  class Config {
    const successStatusCode: ConfigItem<int>
    const maxRequestBodyBytes: ConfigItem<int>
    const responseContentCharset: ConfigItem<string>

    ghost predicate Valid()
      reads this
    {
      successStatusCode != maxRequestBodyBytes
    }

    function Snapshot(): Settings
      reads this, successStatusCode, maxRequestBodyBytes, responseContentCharset
    {
      Settings(successStatusCode.View(), maxRequestBodyBytes.View(), responseContentCharset.View())
    }

    /** The `&Config{...}` literal of `Build`: three fresh, unmodified items. */
    constructor (statusCode: int, maxBytes: int, charset: string)
      ensures Valid()
      ensures fresh(successStatusCode) && fresh(maxRequestBodyBytes) && fresh(responseContentCharset)
      ensures !successStatusCode.IsModified() && successStatusCode.Default() == statusCode
      ensures !maxRequestBodyBytes.IsModified() && maxRequestBodyBytes.Default() == maxBytes
      ensures !responseContentCharset.IsModified() && responseContentCharset.Default() == charset
    {
      successStatusCode := new ConfigItem(statusCode);
      maxRequestBodyBytes := new ConfigItem(maxBytes);
      responseContentCharset := new ConfigItem(charset);
    }

    /** Calling one option closure on this Config. */
    method Invoke(o: Option)
      requires Valid()
      modifies successStatusCode, maxRequestBodyBytes, responseContentCharset
      ensures Snapshot() == ApplyOption(old(Snapshot()), o)
    {
      match o
      case WithSuccessStatusCode(v) => successStatusCode.Set(v);
      case WithMaxRequestBodyBytes(v) => maxRequestBodyBytes.Set(v);
      case WithResponseContentCharset(v) => responseContentCharset.Set(v);
    }

    /** `Apply(opt...)`: runs the options in list order. */
    method Apply(opts: seq<Option>)
      requires Valid()
      modifies successStatusCode, maxRequestBodyBytes, responseContentCharset
      ensures Snapshot() == ApplyAll(old(Snapshot()), opts)
    {
      for i := 0 to |opts|
        invariant Snapshot() == ApplyAll(old(Snapshot()), opts[..i])
      {
        ApplyAllSnoc(old(Snapshot()), opts[..i], opts[i]);
        assert opts[..i + 1] == opts[..i] + [opts[i]];
        Invoke(opts[i]);
      }
      assert opts[..|opts|] == opts;
    }
  }

  /** `ConfigBuilder`: the three defaults, set one at a time. */
  class ConfigBuilder {
    var successStatusCode: int
    var maxRequestBodyBytes: int
    var responseContentCharset: string

    /** `NewConfigBuilder()`: the zero values. */
    constructor ()
      ensures successStatusCode == 0 && maxRequestBodyBytes == 0 && responseContentCharset == ""
    {
      successStatusCode, maxRequestBodyBytes, responseContentCharset := 0, 0, "";
    }

    method SuccessStatusCode(v: int) returns (b: ConfigBuilder)
      modifies this
      ensures b == this && successStatusCode == v
      ensures maxRequestBodyBytes == old(maxRequestBodyBytes) && responseContentCharset == old(responseContentCharset)
    {
      successStatusCode := v;
      b := this;
    }

    method MaxRequestBodyBytes(v: int) returns (b: ConfigBuilder)
      modifies this
      ensures b == this && maxRequestBodyBytes == v
      ensures successStatusCode == old(successStatusCode) && responseContentCharset == old(responseContentCharset)
    {
      maxRequestBodyBytes := v;
      b := this;
    }

    method ResponseContentCharset(v: string) returns (b: ConfigBuilder)
      modifies this
      ensures b == this && responseContentCharset == v
      ensures successStatusCode == old(successStatusCode) && maxRequestBodyBytes == old(maxRequestBodyBytes)
    {
      responseContentCharset := v;
      b := this;
    }

    /** `Build()`: a fresh Config whose items are unmodified and default to
        the builder's fields. */
    method Build() returns (c: Config)
      ensures fresh(c) && c.Valid()
      ensures fresh(c.successStatusCode) && fresh(c.maxRequestBodyBytes) && fresh(c.responseContentCharset)
      ensures !c.successStatusCode.IsModified() && c.successStatusCode.Default() == successStatusCode
      ensures !c.maxRequestBodyBytes.IsModified() && c.maxRequestBodyBytes.Default() == maxRequestBodyBytes
      ensures !c.responseContentCharset.IsModified() && c.responseContentCharset.Default() == responseContentCharset
    {
      c := new Config(successStatusCode, maxRequestBodyBytes, responseContentCharset);
    }
  }
}
