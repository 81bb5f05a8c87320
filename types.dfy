/** The record types of the trading-bot dashboard: bot status, strategy,
    the per-strategy configuration records and the bot record itself. */
module Types {
  import opened Wrappers

  /** A bot is in exactly one of three states. */
  datatype Status = Active | Inactive | Error

  /** The five trading strategies; each one owns a configuration shape. */
  datatype Strategy = DCA | Grid | RSI | Arbitrage | Scalping

  /** The four purchase frequencies a DCA bot can run at. */
  datatype Frequency = Freq1h | Freq4h | Freq1d | Freq1w

  /** The configuration record, tagged by the strategy it belongs to.
      Numbers are exact reals here (the source uses JavaScript numbers). */
  datatype Config =
    | DCAConfig(investment: real, frequency: Frequency)
    | GridConfig(lowerPrice: real, upperPrice: real, grids: real)
    | RSIConfig(oversold: real, overbought: real, orderSize: real)
    | ArbitrageConfig
    | ScalpingConfig(takeProfit: real, stopLoss: real)

  datatype Bot = Bot(
    id: string,
    name: string,
    strategy: Strategy,
    symbol: string,
    status: Status,
    pnl: real,
    capitalAllocation: real,
    config: Config)

  /** The string value of each status enum member; the UI uses it as a translation key. */
  function StatusValue(s: Status): string
  {
    match s
    case Active => "ACTIVE"
    case Inactive => "INACTIVE"
    case Error => "ERROR"
  }

  /** The string value of each strategy enum member; also a translation key. */
  function StrategyValue(s: Strategy): string
  {
    match s
    case DCA => "DCA"
    case Grid => "GRID"
    case RSI => "RSI"
    case Arbitrage => "ARBITRAGE"
    case Scalping => "SCALPING"
  }

  /** The literal tag a DCA frequency is stored as. */
  function FrequencyTag(f: Frequency): string
  {
    match f
    case Freq1h => "freq_1h"
    case Freq4h => "freq_4h"
    case Freq1d => "freq_1d"
    case Freq1w => "freq_1w"
  }

  /** Reads a frequency tag back; any other string is not a frequency. */
  function ParseFrequency(tag: string): (r: Option<Frequency>)
    ensures r.Some? ==> FrequencyTag(r.value) == tag
    ensures r.None? ==> forall f :: FrequencyTag(f) != tag
  {
    if tag == "freq_1h" then Some(Freq1h)
    else if tag == "freq_4h" then Some(Freq4h)
    else if tag == "freq_1d" then Some(Freq1d)
    else if tag == "freq_1w" then Some(Freq1w)
    else None
  }


  /** Reading back the tag of a frequency gives that frequency. */
  lemma FrequencyRoundTrip(f: Frequency)
    ensures ParseFrequency(FrequencyTag(f)) == Some(f)
  {
  }

  /** The enum string values are pairwise distinct, so they are usable as keys. */
  lemma EnumValuesDistinct(a: Status, b: Status, x: Strategy, y: Strategy, f: Frequency, g: Frequency)
    ensures StatusValue(a) == StatusValue(b) ==> a == b
    ensures StrategyValue(x) == StrategyValue(y) ==> x == y
    ensures FrequencyTag(f) == FrequencyTag(g) ==> f == g
  {
  }

  /** The strategy a configuration record is shaped for. */
  function StrategyOf(c: Config): Strategy
  {
    match c
    case DCAConfig(_, _) => DCA
    case GridConfig(_, _, _) => Grid
    case RSIConfig(_, _, _) => RSI
    case ArbitrageConfig => Arbitrage
    case ScalpingConfig(_, _) => Scalping
  }

  /** Every bot's config has the shape of its strategy. */
  predicate ConfigMatches(b: Bot)
  {
    StrategyOf(b.config) == b.strategy
  }

  /** The field names of each configuration record, in declaration order. */
  function FieldsOf(c: Config): (r: seq<string>)
    ensures c.ArbitrageConfig? <==> r == []
  {
    match c
    case DCAConfig(_, _) => ["investment", "frequency"]
    case GridConfig(_, _, _) => ["lowerPrice", "upperPrice", "grids"]
    case RSIConfig(_, _, _) => ["oversold", "overbought", "orderSize"]
    case ArbitrageConfig => []
    case ScalpingConfig(_, _) => ["takeProfit", "stopLoss"]
  }

  /** A stored field value: a number, or the string tag of the DCA frequency. */
  datatype FieldValue = Number(n: real) | Text(s: string)

  /** The value stored under a field name, as the JavaScript object would hold it. */
  function FieldValueOf(c: Config, name: string): (r: Option<FieldValue>)
    ensures r.Some? <==> name in FieldsOf(c)
  {
    match c
    case DCAConfig(inv, freq) =>
      if name == "investment" then Some(Number(inv))
      else if name == "frequency" then Some(Text(FrequencyTag(freq)))
      else None
    case GridConfig(lo, hi, n) =>
      if name == "lowerPrice" then Some(Number(lo))
      else if name == "upperPrice" then Some(Number(hi))
      else if name == "grids" then Some(Number(n))
      else None
    case RSIConfig(os, ob, size) =>
      if name == "oversold" then Some(Number(os))
      else if name == "overbought" then Some(Number(ob))
      else if name == "orderSize" then Some(Number(size))
      else None
    case ArbitrageConfig => None
    case ScalpingConfig(tp, sl) =>
      if name == "takeProfit" then Some(Number(tp))
      else if name == "stopLoss" then Some(Number(sl))
      else None
  }

  /** Two configurations of the same shape that agree on every field are equal:
      the field view loses nothing. */
  lemma {:induction false} FieldViewDetermines(c: Config, d: Config)
    requires StrategyOf(c) == StrategyOf(d)
    requires forall name :: FieldValueOf(c, name) == FieldValueOf(d, name)
    ensures c == d
  {
    match c
    case DCAConfig(inv, freq) =>
      assert FieldValueOf(c, "investment") == FieldValueOf(d, "investment");
      assert FieldValueOf(c, "frequency") == FieldValueOf(d, "frequency");
      FrequencyRoundTrip(freq);
      FrequencyRoundTrip(d.frequency);
    case GridConfig(_, _, _) =>
      assert FieldValueOf(c, "lowerPrice") == FieldValueOf(d, "lowerPrice");
      assert FieldValueOf(c, "upperPrice") == FieldValueOf(d, "upperPrice");
      assert FieldValueOf(c, "grids") == FieldValueOf(d, "grids");
    case RSIConfig(_, _, _) =>
      assert FieldValueOf(c, "oversold") == FieldValueOf(d, "oversold");
      assert FieldValueOf(c, "overbought") == FieldValueOf(d, "overbought");
      assert FieldValueOf(c, "orderSize") == FieldValueOf(d, "orderSize");
    case ArbitrageConfig =>
    case ScalpingConfig(_, _) =>
      assert FieldValueOf(c, "takeProfit") == FieldValueOf(d, "takeProfit");
      assert FieldValueOf(c, "stopLoss") == FieldValueOf(d, "stopLoss");
  }
}
