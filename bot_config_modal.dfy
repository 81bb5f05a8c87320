/** The settings dialog of one bot: the inputs rendered for its strategy,
    the keyed update of the edited config and the save that replaces only
    the bot's config. */
module BotConfigEditor {
  import opened Wrappers
  import opened Types

  /** The kind of control a field is edited with. */
  datatype Control = NumberInput | Select(options: seq<string>)

  /** The options of the DCA frequency select. */
  function FrequencyOptions(): seq<string>
  {
    ["freq_1h", "freq_4h", "freq_1d", "freq_1w"]
  }

  /** The inputs `renderConfigFields` shows for a strategy, by input id. */
  function EditorFields(s: Strategy): seq<(string, Control)>
  {
    match s
    case DCA => [("investment", NumberInput), ("frequency", Select(FrequencyOptions()))]
    case Grid => [("lowerPrice", NumberInput), ("upperPrice", NumberInput), ("grids", NumberInput)]
    case RSI => [("oversold", NumberInput), ("overbought", NumberInput), ("orderSize", NumberInput)]
    case Scalping => [("takeProfit", NumberInput), ("stopLoss", NumberInput)]
    case Arbitrage => []
  }

  function FieldIds(fields: seq<(string, Control)>): (r: seq<string>)
    ensures |r| == |fields| && forall i :: 0 <= i < |fields| ==> r[i] == fields[i].0
  {
    seq(|fields|, i requires 0 <= i < |fields| => fields[i].0)
  }

  /** The control rendered under an input id, if any. */
  function ControlOf(s: Strategy, name: string): Option<Control>
  {
    var fields := EditorFields(s);
    if exists i :: 0 <= i < |fields| && fields[i].0 == name
    then var i :| 0 <= i < |fields| && fields[i].0 == name; Some(fields[i].1)
    else None
  }

  /** The inputs rendered for a strategy are exactly the fields of that
      strategy's config, in order (none for Arbitrage); the frequency is a
      select and every other field a number input. */
  lemma EditorFieldsAreConfigFields(c: Config, name: string)
    ensures FieldIds(EditorFields(StrategyOf(c))) == FieldsOf(c)
    ensures StrategyOf(c) == Arbitrage ==> EditorFields(StrategyOf(c)) == []
    ensures ControlOf(StrategyOf(c), name).Some? <==> name in FieldsOf(c)
    ensures ControlOf(StrategyOf(c), name) == Some(Select(FrequencyOptions())) <==> c.DCAConfig? && name == "frequency"
    ensures ControlOf(StrategyOf(c), name) == Some(NumberInput) <==> name in FieldsOf(c) && name != "frequency"
  {
    var fields := EditorFields(StrategyOf(c));
    assert FieldIds(fields) == FieldsOf(c);
    if name in FieldsOf(c) {
      var k :| 0 <= k < |FieldsOf(c)| && FieldsOf(c)[k] == name;
      assert fields[k].0 == name;
    }
  }

  /** The frequency choices are exactly the tags of the four frequencies. */
  lemma FrequencyChoices()
    ensures forall tag :: tag in FrequencyOptions() <==> ParseFrequency(tag).Some?
    ensures forall f :: FrequencyTag(f) in FrequencyOptions()
  {
    forall tag ensures tag in FrequencyOptions() <==> ParseFrequency(tag).Some? {
      if ParseFrequency(tag).Some? {
        assert tag == FrequencyTag(ParseFrequency(tag).value);
      }
    }
  }

  /** The change events the rendered inputs can raise: a number input delivers
      its parsed number, the select its raw option string. */
  predicate Fits(s: Strategy, name: string, v: FieldValue)
  {
    match ControlOf(s, name)
    case None => false
    case Some(NumberInput) => v.Number?
    case Some(Select(opts)) => v.Text? && v.s in opts
  }

  /** `handleChange`: store the event's value under the event's field name
      and keep every other field. */
  function HandleChange(c: Config, name: string, v: FieldValue): (r: Config)
    requires Fits(StrategyOf(c), name, v)
    ensures StrategyOf(r) == StrategyOf(c) && FieldsOf(r) == FieldsOf(c)
    ensures FieldValueOf(r, name) == Some(v)
    ensures forall f :: f != name ==> FieldValueOf(r, f) == FieldValueOf(c, f)
  {
    EditorFieldsAreConfigFields(c, name);
    FrequencyChoices();
    match c
    case DCAConfig(inv, freq) =>
      if name == "investment" then DCAConfig(v.n, freq)
      else DCAConfig(inv, ParseFrequency(v.s).value)
    case GridConfig(lo, hi, n) =>
      if name == "lowerPrice" then GridConfig(v.n, hi, n)
      else if name == "upperPrice" then GridConfig(lo, v.n, n)
      else GridConfig(lo, hi, v.n)
    case RSIConfig(os, ob, size) =>
      if name == "oversold" then RSIConfig(v.n, ob, size)
      else if name == "overbought" then RSIConfig(os, v.n, size)
      else RSIConfig(os, ob, v.n)
    case ScalpingConfig(tp, sl) =>
      if name == "takeProfit" then ScalpingConfig(v.n, sl)
      else ScalpingConfig(tp, v.n)
  }

  /** The same change twice is the change once, and changes to two different
      fields commute. */
  lemma ChangeLaws(c: Config, a: string, va: FieldValue, b: string, vb: FieldValue)
    requires Fits(StrategyOf(c), a, va) && Fits(StrategyOf(c), b, vb)
    ensures HandleChange(HandleChange(c, a, va), a, va) == HandleChange(c, a, va)
    ensures a != b ==>
      HandleChange(HandleChange(c, a, va), b, vb) == HandleChange(HandleChange(c, b, vb), a, va)
  {
    var once := HandleChange(c, a, va);
    FieldViewDetermines(HandleChange(once, a, va), once);
    if a != b {
      FieldViewDetermines(HandleChange(once, b, vb), HandleChange(HandleChange(c, b, vb), a, va));
    }
  }

  /** The dialog's held state: the bot it was opened on and the config being edited. */
  class ConfigEditor {
    var bot: Bot
    var config: Config

    ghost predicate Valid()
      reads this
    {
      StrategyOf(config) == bot.strategy
    }

    /** Opening the dialog: the edited config starts as the bot's config. */
    constructor (b: Bot)
      ensures bot == b && config == b.config
      ensures ConfigMatches(b) ==> Valid()
    {
      bot := b;
      config := b.config;
    }

    /** The effect on a new `bot` prop: the edited config is reset to its config. */
    method BotChanged(b: Bot)
      modifies this
      ensures bot == b && config == b.config
      ensures ConfigMatches(b) ==> Valid()
    {
      bot := b;
      config := b.config;
    }

    /** One change event from a rendered input. */
    method Change(name: string, v: FieldValue)
      requires Valid() && Fits(bot.strategy, name, v)
      modifies this`config
      ensures Valid()
      ensures config == HandleChange(old(config), name, v)
    {
      config := HandleChange(config, name, v);
    }

    /** `handleSave`: no validation; the bot handed to `onSave` equals the
        dialog's bot in every field except the config, which is the edited one. */
    method Save() returns (updated: Bot)
      ensures updated.config == config
      ensures updated.(config := bot.config) == bot
      ensures Valid() ==> ConfigMatches(updated)
    {
      updated := bot.(config := config);
    }
  }
}
