/** The bot registry of the Bots page: the seed roster, the per-row status
    toggle, the periodic PnL tick, save-by-id and adding a bot with the
    default configuration of its strategy. */
module Bots {
  import opened Wrappers
  import opened Types

  /** The five seed bots the page starts with. */
  function InitialBots(): (r: seq<Bot>)
    ensures |r| == 5
    ensures forall i :: 0 <= i < |r| ==> ConfigMatches(r[i])
    ensures forall i, j :: 0 <= i < j < |r| ==> r[i].id != r[j].id
    ensures forall i :: 0 <= i < |r| ==> r[i].id == [('1' as int + i) as char]
  {
    [ Bot("1", "DCA Master", DCA, "BTC/USDT", Active, 450.21, 30.0, DCAConfig(100.0, Freq1d)),
      Bot("2", "Grid Runner", Grid, "ETH/USDT", Active, 731.55, 45.0, GridConfig(2800.0, 3500.0, 20.0)),
      Bot("3", "RSI Momentum", RSI, "SOL/USDT", Active, 75.02, 15.0, RSIConfig(30.0, 70.0, 5.0)),
      Bot("4", "Arbitrage Finder", Arbitrage, "Multiple", Inactive, 0.0, 0.0, ArbitrageConfig),
      Bot("5", "Scalp Pro", Scalping, "BNB/USDT", Error, -120.80, 10.0, ScalpingConfig(0.5, 0.3)) ]
  }

  /** The row's start/stop button: an Active bot stops, any other bot
      (Inactive or Error) becomes Active; nothing else changes. */
  function Toggle(b: Bot): (r: Bot)
    ensures r.status == Active <==> b.status != Active
    ensures r.status != Active ==> r.status == Inactive
    ensures r == b.(status := r.status)
  {
    b.(status := if b.status == Active then Inactive else Active)
  }

  /** Two toggles bring an Active or Inactive bot back to where it was, and an
      Error bot to Inactive. */
  lemma ToggleTwice(b: Bot)
    ensures b.status != Error ==> Toggle(Toggle(b)) == b
    ensures b.status == Error ==> Toggle(Toggle(b)) == b.(status := Inactive)
  {
  }

  /** One bot's step of the tick, with the random draw `r` as a parameter. */
  function TickBot(b: Bot, r: real): Bot
  {
    if b.status == Active then b.(pnl := b.pnl + (r - 0.45) * 5.0) else b
  }

  /** A tick moves only the pnl of an Active bot, by an amount in
      [-2.25, 2.75) for a draw in [0, 1); any other bot is returned unchanged. */
  lemma TickBotEffect(b: Bot, r: real)
    requires 0.0 <= r < 1.0
    ensures b.status != Active ==> TickBot(b, r) == b
    ensures b.status == Active ==> TickBot(b, r) == b.(pnl := TickBot(b, r).pnl)
    ensures b.status == Active ==> -2.25 <= TickBot(b, r).pnl - b.pnl < 2.75
  {
  }

  /** The seed bot '1' with a draw of 0.5 moves from 450.21 to 450.46. */
  lemma TickScenario()
    ensures TickBot(InitialBots()[0], 0.5).pnl == 450.46
  {
  }

  /** The interval body: `prevBots.map(...)`, one draw per position. */
  function TickAll(bots: seq<Bot>, draws: seq<real>): seq<Bot>
    requires |draws| == |bots|
  {
    if bots == [] then [] else [TickBot(bots[0], draws[0])] + TickAll(bots[1..], draws[1..])
  }

  /** The tick keeps the length and order of the registry: position `i` holds
      bot `i` after its own step. */
  lemma {:induction false} TickAllAt(bots: seq<Bot>, draws: seq<real>)
    requires |draws| == |bots|
    ensures |TickAll(bots, draws)| == |bots|
    ensures forall i :: 0 <= i < |bots| ==> TickAll(bots, draws)[i] == TickBot(bots[i], draws[i])
  {
    if bots != [] {
      TickAllAt(bots[1..], draws[1..]);
    }
  }

  /** `handleSaveConfig`'s map: every record whose id equals the updated
      bot's id is replaced by it. */
  function SaveById(bots: seq<Bot>, updated: Bot): seq<Bot>
  {
    if bots == [] then []
    else [if bots[0].id == updated.id then updated else bots[0]] + SaveById(bots[1..], updated)
  }

  /** Save keeps the length, replaces exactly the records with the updated
      id and keeps every other record as it was. */
  lemma {:induction false} SaveByIdAt(bots: seq<Bot>, updated: Bot)
    ensures |SaveById(bots, updated)| == |bots|
    ensures forall i :: 0 <= i < |bots| ==>
      SaveById(bots, updated)[i] == if bots[i].id == updated.id then updated else bots[i]
  {
    if bots != [] {
      SaveByIdAt(bots[1..], updated);
    }
  }

  /** Saving a bot whose id is not in the registry changes nothing. */
  lemma {:induction false} SaveUnknownId(bots: seq<Bot>, updated: Bot)
    requires forall i :: 0 <= i < |bots| ==> bots[i].id != updated.id
    ensures SaveById(bots, updated) == bots
  {
    if bots != [] {
      SaveUnknownId(bots[1..], updated);
    }
  }

  /** `getDefaultConfig`: the configuration a newly added bot starts with. */
  function DefaultConfig(s: Strategy): (r: Config)
    ensures StrategyOf(r) == s
  {
    match s
    case DCA => DCAConfig(50.0, Freq1d)
    case Grid => GridConfig(2000.0, 4000.0, 10.0)
    case RSI => RSIConfig(30.0, 70.0, 1.0)
    case Scalping => ScalpingConfig(0.5, 0.3)
    case Arbitrage => ArbitrageConfig
  }

  /** What the add-bot dialog hands over. */
  datatype NewBotData = NewBotData(name: string, symbol: string, strategy: Strategy)

  /** The record `handleAddBot` builds; the id is a parameter of the model. */
  function NewBot(id: string, data: NewBotData): (r: Bot)
    ensures r.id == id && r.name == data.name && r.symbol == data.symbol && r.strategy == data.strategy
    ensures r.status == Inactive && r.pnl == 0.0 && r.capitalAllocation == 0.0
    ensures r.config == DefaultConfig(data.strategy) && ConfigMatches(r)
  {
    Bot(id, data.name, data.strategy, data.symbol, Inactive, 0.0, 0.0, DefaultConfig(data.strategy))
  }

  predicate AllMatch(bots: seq<Bot>)
  {
    forall i :: 0 <= i < |bots| ==> ConfigMatches(bots[i])
  }

  /** A tick keeps every config matching its strategy. */
  lemma TickKeepsMatch(bots: seq<Bot>, draws: seq<real>)
    requires AllMatch(bots) && |draws| == |bots|
    ensures AllMatch(TickAll(bots, draws))
  {
    TickAllAt(bots, draws);
  }

  /** A save keeps every config matching its strategy when the saved bot's does;
      the save itself does not check this. */
  lemma SaveKeepsMatch(bots: seq<Bot>, updated: Bot)
    requires AllMatch(bots) && ConfigMatches(updated)
    ensures AllMatch(SaveById(bots, updated))
  {
    SaveByIdAt(bots, updated);
  }

  /** The page's held state: the registry, the bot being edited and whether
      the add dialog is open. */
  class Registry {
    var bots: seq<Bot>
    var editingBot: Option<Bot>
    var isAddModalOpen: bool

    ghost predicate Valid()
      reads this
    {
      AllMatch(bots)
    }

    constructor ()
      ensures Valid()
      ensures bots == InitialBots() && editingBot == None && !isAddModalOpen
    {
      bots := InitialBots();
      editingBot := None;
      isAddModalOpen := false;
    }

    /** One firing of the two-second interval, given the draws of `Math.random`. */
    method Tick(draws: seq<real>)
      requires |draws| == |bots|
      requires forall i :: 0 <= i < |draws| ==> 0.0 <= draws[i] < 1.0
      modifies this`bots
      ensures old(Valid()) ==> Valid()
      ensures bots == TickAll(old(bots), draws)
      ensures |bots| == |old(bots)|
      ensures forall i :: 0 <= i < |bots| && old(bots)[i].status != Active ==> bots[i] == old(bots)[i]
      ensures forall i :: 0 <= i < |bots| && old(bots)[i].status == Active ==>
        bots[i] == old(bots)[i].(pnl := bots[i].pnl) && -2.25 <= bots[i].pnl - old(bots)[i].pnl < 2.75
    {
      if Valid() { TickKeepsMatch(bots, draws); }
      TickAllAt(bots, draws);
      forall i | 0 <= i < |bots| {
        TickBotEffect(bots[i], draws[i]);
      }
      bots := TickAll(bots, draws);
    }

    /** The settings button of a row: open the editor on that bot. */
    method OpenEditor(b: Bot)
      modifies this`editingBot
      ensures editingBot == Some(b)
    {
      editingBot := Some(b);
    }

    /** Closing the editor without saving. */
    method CloseEditor()
      modifies this`editingBot
      ensures editingBot == None
    {
      editingBot := None;
    }

    /** `handleSaveConfig`. */
    method SaveConfig(updated: Bot)
      modifies this`bots, this`editingBot
      ensures old(Valid()) && ConfigMatches(updated) ==> Valid()
      ensures bots == SaveById(old(bots), updated) && editingBot == None
      ensures |bots| == |old(bots)|
      ensures forall i :: 0 <= i < |bots| ==>
        bots[i] == if old(bots)[i].id == updated.id then updated else old(bots)[i]
    {
      if Valid() && ConfigMatches(updated) { SaveKeepsMatch(bots, updated); }
      SaveByIdAt(bots, updated);
      bots := SaveById(bots, updated);
      editingBot := None;
    }

    method OpenAddModal()
      modifies this`isAddModalOpen
      ensures isAddModalOpen
    {
      isAddModalOpen := true;
    }

    method CloseAddModal()
      modifies this`isAddModalOpen
      ensures !isAddModalOpen
    {
      isAddModalOpen := false;
    }

    /** `handleAddBot`: append one new record and close the dialog. */
    method AddBot(id: string, data: NewBotData)
      modifies this`bots, this`isAddModalOpen
      ensures old(Valid()) ==> Valid()
      ensures bots == old(bots) + [NewBot(id, data)] && !isAddModalOpen
    {
      bots := bots + [NewBot(id, data)];
      isAddModalOpen := false;
    }
  }
}
