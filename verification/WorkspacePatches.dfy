// Patches of the terminal workspace and how two of them become one
// (`combinePatches` in src/hooks/useTerminalWorkspace.ts).

module WorkspacePatches {
  import opened Common

  /** The JSON text of a setting. */
  type Value = string

  type Fields = map<string, Value>

  /** An address sets the entry of a broker, `null` removes it. */
  datatype Setting = Put(value: Value) | Remove

  datatype TradingViewPatch = TradingViewPatch(own: Fields, panels: Option<Fields>, chart: Option<Fields>)

  datatype MetaTraderPatch = MetaTraderPatch(own: Fields, brokerTerminals: Option<map<string, Setting>>)

  datatype Patch = Patch(
    own: Fields,
    tradingview: Option<TradingViewPatch>,
    metatrader: Option<MetaTraderPatch>,
    wsatrade: Option<Fields>)

  const EMPTY: Patch := Patch(map[], None, None, None)

  // ---- combinePatches ---------------------------------------------------------------------------

  function FieldsOf<V>(fields: Option<map<string, V>>): map<string, V> {
    if fields.Some? then fields.value else map[]
  }

  /** One object over the other; absent only if both are. */
  function Spread<V>(first: Option<map<string, V>>, second: Option<map<string, V>>): Option<map<string, V>> {
    if first.Some? || second.Some? then Some(FieldsOf(first) + FieldsOf(second)) else None
  }

  function CombineTradingView(
    first: Option<TradingViewPatch>, second: Option<TradingViewPatch>): Option<TradingViewPatch>
  {
    if first.None? && second.None? then None
    else
      var a := if first.Some? then first.value else TradingViewPatch(map[], None, None);
      var b := if second.Some? then second.value else TradingViewPatch(map[], None, None);
      Some(TradingViewPatch(a.own + b.own, Spread(a.panels, b.panels), Spread(a.chart, b.chart)))
  }

  function CombineMetaTrader(first: Option<MetaTraderPatch>, second: Option<MetaTraderPatch>): Option<MetaTraderPatch> {
    if first.None? && second.None? then None
    else
      var a := if first.Some? then first.value else MetaTraderPatch(map[], None);
      var b := if second.Some? then second.value else MetaTraderPatch(map[], None);
      Some(MetaTraderPatch(a.own + b.own, Spread(a.brokerTerminals, b.brokerTerminals)))
  }

  function Combine(first: Option<Patch>, second: Patch): Patch {
    if first.None? then second
    else
      var a := first.value;
      Patch(
        a.own + second.own,
        CombineTradingView(a.tradingview, second.tradingview),
        CombineMetaTrader(a.metatrader, second.metatrader),
        Spread(a.wsatrade, second.wsatrade))
  }

  // ---- its laws -----------------------------------------------------------------------------------

  lemma SpreadAssociative<V>(a: Option<map<string, V>>, b: Option<map<string, V>>, c: Option<map<string, V>>)
    ensures Spread(Spread(a, b), c) == Spread(a, Spread(b, c))
  {
    assert (FieldsOf(a) + FieldsOf(b)) + FieldsOf(c) == FieldsOf(a) + (FieldsOf(b) + FieldsOf(c));
  }

  /** Combining in either grouping gives the very same patch. */
  lemma CombineAssociative(a: Option<Patch>, b: Patch, c: Patch)
    ensures Combine(Some(Combine(a, b)), c) == Combine(a, Combine(Some(b), c))
  {
    if a.Some? {
      var x := a.value;
      assert (x.own + b.own) + c.own == x.own + (b.own + c.own);
      SpreadAssociative(x.wsatrade, b.wsatrade, c.wsatrade);
      TradingViewAssociative(x.tradingview, b.tradingview, c.tradingview);
      MetaTraderAssociative(x.metatrader, b.metatrader, c.metatrader);
    }
  }

  lemma TradingViewAssociative(a: Option<TradingViewPatch>, b: Option<TradingViewPatch>, c: Option<TradingViewPatch>)
    ensures CombineTradingView(CombineTradingView(a, b), c) == CombineTradingView(a, CombineTradingView(b, c))
  {
    var none := TradingViewPatch(map[], None, None);
    var x := if a.Some? then a.value else none;
    var y := if b.Some? then b.value else none;
    var z := if c.Some? then c.value else none;
    assert (x.own + y.own) + z.own == x.own + (y.own + z.own);
    SpreadAssociative(x.panels, y.panels, z.panels);
    SpreadAssociative(x.chart, y.chart, z.chart);
  }

  lemma MetaTraderAssociative(a: Option<MetaTraderPatch>, b: Option<MetaTraderPatch>, c: Option<MetaTraderPatch>)
    ensures CombineMetaTrader(CombineMetaTrader(a, b), c) == CombineMetaTrader(a, CombineMetaTrader(b, c))
  {
    var none := MetaTraderPatch(map[], None);
    var x := if a.Some? then a.value else none;
    var y := if b.Some? then b.value else none;
    var z := if c.Some? then c.value else none;
    assert (x.own + y.own) + z.own == x.own + (y.own + z.own);
    SpreadAssociative(x.brokerTerminals, y.brokerTerminals, z.brokerTerminals);
  }

  /** The empty patch changes nothing on either side, and a patch combined with itself is itself. */
  lemma CombineIdentityAndIdempotent(p: Patch)
    ensures Combine(None, p) == p
    ensures Combine(Some(EMPTY), p) == p
    ensures Combine(Some(p), EMPTY) == p
    ensures Combine(Some(p), p) == p
  {
    SpreadUnits(p.wsatrade);
    assert p.own + map[] == p.own && map[] + p.own == p.own && p.own + p.own == p.own;
    if p.tradingview.Some? {
      var t := p.tradingview.value;
      SpreadUnits(t.panels);
      SpreadUnits(t.chart);
      assert t.own + map[] == t.own && map[] + t.own == t.own && t.own + t.own == t.own;
    }
    if p.metatrader.Some? {
      var m := p.metatrader.value;
      SpreadUnits(m.brokerTerminals);
      assert m.own + map[] == m.own && map[] + m.own == m.own && m.own + m.own == m.own;
    }
  }

  lemma SpreadUnits<V>(a: Option<map<string, V>>)
    ensures Spread(None, a) == a && Spread(a, None) == a && Spread(a, a) == a
  {
    var fields := FieldsOf(a);
    assert fields + map[] == fields && map[] + fields == fields && fields + fields == fields;
  }

  // ---- patches as overrides of single settings -----------------------------------------------------

  datatype Leaf =
    | Own(name: string)
    | TradingView(name: string) | Panel(name: string) | Chart(name: string)
    | MetaTrader(name: string) | BrokerTerminal(key: string)
    | WsaTrade(name: string)

  type Overrides = map<Leaf, Setting>

  /** A workspace is what its settings say; brokers without an address have no entry. */
  type Workspace = map<Leaf, Value>

  /** What a patch says about one setting. */
  function Lookup(p: Patch, l: Leaf): Option<Setting> {
    var tv := if p.tradingview.Some? then p.tradingview.value else TradingViewPatch(map[], None, None);
    var mt := if p.metatrader.Some? then p.metatrader.value else MetaTraderPatch(map[], None);
    match l
    case Own(k) => PutIn(p.own, k)
    case TradingView(k) => PutIn(tv.own, k)
    case Panel(k) => PutIn(FieldsOf(tv.panels), k)
    case Chart(k) => PutIn(FieldsOf(tv.chart), k)
    case MetaTrader(k) => PutIn(mt.own, k)
    case BrokerTerminal(k) => if k in FieldsOf(mt.brokerTerminals) then Some(FieldsOf(mt.brokerTerminals)[k]) else None
    case WsaTrade(k) => PutIn(FieldsOf(p.wsatrade), k)
  }

  function PutIn(fields: Fields, k: string): Option<Setting> {
    if k in fields then Some(Put(fields[k])) else None
  }

  /** The settings a patch names. */
  function Names(p: Patch): set<Leaf> {
    var tv := if p.tradingview.Some? then p.tradingview.value else TradingViewPatch(map[], None, None);
    var mt := if p.metatrader.Some? then p.metatrader.value else MetaTraderPatch(map[], None);
    (set k | k in p.own :: Own(k))
    + (set k | k in tv.own :: TradingView(k))
    + (set k | k in FieldsOf(tv.panels) :: Panel(k))
    + (set k | k in FieldsOf(tv.chart) :: Chart(k))
    + (set k | k in mt.own :: MetaTrader(k))
    + (set k | k in FieldsOf(mt.brokerTerminals) :: BrokerTerminal(k))
    + (set k | k in FieldsOf(p.wsatrade) :: WsaTrade(k))
  }

  lemma NamesAreLookups(p: Patch, l: Leaf)
    ensures l in Names(p) <==> Lookup(p, l).Some?
  {
    match l { case Own(_) => case TradingView(_) => case Panel(_) => case Chart(_) => case MetaTrader(_) =>
      case BrokerTerminal(_) => case WsaTrade(_) => }
  }

  function Tabulate(names: set<Leaf>, says: Leaf -> Option<Setting>): Overrides
    requires forall l :: l in names ==> says(l).Some?
  {
    map l | l in names :: says(l).value
  }

  function Leaves(p: Patch): Overrides {
    assert forall l :: l in Names(p) <==> Lookup(p, l).Some? by {
      forall l ensures l in Names(p) <==> Lookup(p, l).Some? { NamesAreLookups(p, l); }
    }
    Tabulate(Names(p), l => Lookup(p, l))
  }

  function LeavesOf(p: Option<Patch>): Overrides {
    if p.Some? then Leaves(p.value) else map[]
  }

  /** Every setting the second patch names is taken from it, every other one survives from the first. */
  lemma LookupOfCombine(a: Option<Patch>, b: Patch, l: Leaf)
    ensures Lookup(Combine(a, b), l)
         == if Lookup(b, l).Some? || a.None? then Lookup(b, l) else Lookup(a.value, l)
  {
    if a.Some? && (l.TradingView? || l.Panel? || l.Chart?) {
      LookupOfTradingView(a.value, b, l);
    } else if a.Some? && (l.MetaTrader? || l.BrokerTerminal?) {
      LookupOfMetaTrader(a.value, b, l);
    } else {
      hide CombineTradingView, CombineMetaTrader;
    }
  }

  lemma LookupOfTradingView(a: Patch, b: Patch, l: Leaf)
    requires l.TradingView? || l.Panel? || l.Chart?
    ensures Lookup(Combine(Some(a), b), l) == if Lookup(b, l).Some? then Lookup(b, l) else Lookup(a, l)
  {
    hide CombineMetaTrader;
  }

  lemma LookupOfMetaTrader(a: Patch, b: Patch, l: Leaf)
    requires l.MetaTrader? || l.BrokerTerminal?
    ensures Lookup(Combine(Some(a), b), l) == if Lookup(b, l).Some? then Lookup(b, l) else Lookup(a, l)
  {
    hide CombineTradingView;
  }

  lemma TabulateOverridden(a: set<Leaf>, f: Leaf -> Option<Setting>, b: set<Leaf>, g: Leaf -> Option<Setting>,
                           c: set<Leaf>, h: Leaf -> Option<Setting>)
    requires forall l :: l in a <==> f(l).Some?
    requires forall l :: l in b <==> g(l).Some?
    requires forall l :: l in c <==> h(l).Some?
    requires forall l :: h(l) == if g(l).Some? then g(l) else f(l)
    ensures Tabulate(c, h) == Tabulate(a, f) + Tabulate(b, g)
  {
    var x, y := Tabulate(c, h), Tabulate(a, f) + Tabulate(b, g);
    assert x.Keys == y.Keys;
  }

  lemma LeavesOfCombine(a: Option<Patch>, b: Patch)
    ensures Leaves(Combine(a, b)) == LeavesOf(a) + Leaves(b)
  {
    if a.Some? {
      hide Names, Lookup, Combine;
      var c := Combine(a, b);
      var f, g, h := (l: Leaf) => Lookup(a.value, l), (l: Leaf) => Lookup(b, l), (l: Leaf) => Lookup(c, l);
      forall l ensures h(l) == if g(l).Some? then g(l) else f(l) { LookupOfCombine(a, b, l); }
      forall l
        ensures l in Names(a.value) <==> f(l).Some?
        ensures l in Names(b) <==> g(l).Some?
        ensures l in Names(c) <==> h(l).Some?
      {
        NamesAreLookups(a.value, l);
        NamesAreLookups(b, l);
        NamesAreLookups(c, l);
      }
      TabulateOverridden(Names(a.value), f, Names(b), g, Names(c), h);
    } else {
      assert map[] + Leaves(b) == Leaves(b);
    }
  }

  /** mergeWorkspace, as the override of the settings a patch names. The module WorkspaceMerge shows exactly when it is
      that. */
  function Over(w: Workspace, o: Overrides): Workspace {
    map l | l in w.Keys + o.Keys && (l in o ==> o[l].Put?) :: if l in o then o[l].value else w[l]
  }

  function Merge(w: Workspace, p: Patch): Workspace {
    Over(w, Leaves(p))
  }

  function Get(w: Workspace, l: Leaf): Option<Value> {
    if l in w then Some(w[l]) else None
  }

  lemma SameEverywhere(a: Workspace, b: Workspace)
    requires forall l: Leaf :: Get(a, l) == Get(b, l)
    ensures a == b
  {
    forall l: Leaf ensures (l in a <==> l in b) && (l in a ==> a[l] == b[l]) {
      assert Get(a, l) == Get(b, l);
    }
  }

  lemma GetOver(w: Workspace, o: Overrides, l: Leaf)
    ensures Get(Over(w, o), l)
         == if l !in o then Get(w, l) else if o[l].Put? then Some(o[l].value) else None
  {
  }

  lemma NothingOver(w: Workspace)
    ensures Over(w, map[]) == w
  {
  }

  lemma OverOver(w: Workspace, a: Overrides, b: Overrides)
    ensures Over(Over(w, a), b) == Over(w, a + b)
  {
  }

  /** Applying two patches one after the other is applying the combined patch once. */
  lemma MergeOfCombine(w: Workspace, a: Patch, b: Patch)
    ensures Merge(Merge(w, a), b) == Merge(w, Combine(Some(a), b))
  {
    LeavesOfCombine(Some(a), b);
    OverOver(w, Leaves(a), Leaves(b));
  }
}
