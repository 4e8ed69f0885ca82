// mergeWorkspace (src/lib/terminal/workspace.ts) on whole documents, and exactly when it is the plain override of
// settings that the module WorkspacePatches works with: invalid values are ignored, the list of broker addresses
// keeps its newest twenty, and the selected account never outlives the account it points to.

module WorkspaceMerge {
  import opened Common
  import opened WorkspacePatches

  const MAX_BROKER_TERMINALS: nat := 20

  const SELECTION: Leaf := MetaTrader("selection")
  const ACCOUNTS: Leaf := MetaTrader("manualAccounts")
  const NULL: Value := "null"

  /** The checks of single values: what each reads a value as, or None where the value is not valid. */
  datatype Checks = Checks(
    settings: set<Leaf>,                            // everything but the broker addresses
    normal: (Leaf, Value) -> Option<Value>,         // one per setting
    brokerKey: string -> bool,                      // isBrokerTerminalKey
    address: Value -> Option<Value>,                // validateCustomTerminalUrl
    selection: (Value, Value) -> Option<Value>)     // sanitizeSelection, beside the accounts added by hand

  ghost predicate Sound(c: Checks) {
    && SELECTION in c.settings && ACCOUNTS in c.settings
    && (forall l :: l in c.settings ==> !l.BrokerTerminal?)
    && (forall accounts: Value :: c.selection(NULL, accounts) == None)
    && (forall v: Value, accounts: Value :: c.selection(v, accounts).Some? ==>
          c.selection(c.selection(v, accounts).value, accounts) == c.selection(v, accounts))
  }

  datatype Terminal = Terminal(key: string, url: Value)

  /** The addresses stand in order of age. */
  datatype Document = Document(settings: map<Leaf, Value>, terminals: seq<Terminal>)

  ghost predicate DistinctKeys(terminals: seq<Terminal>) {
    forall i, j :: 0 <= i < j < |terminals| ==> terminals[i].key != terminals[j].key
  }

  ghost predicate WellFormed(c: Checks, d: Document) {
    d.settings.Keys == c.settings && DistinctKeys(d.terminals) && |d.terminals| <= MAX_BROKER_TERMINALS
  }

  // ---- broker addresses -----------------------------------------------------------------------------

  function Without(terminals: seq<Terminal>, key: string): seq<Terminal> {
    if terminals == [] then []
    else
      var n := |terminals| - 1;
      if terminals[n].key == key then Without(terminals[..n], key) else Without(terminals[..n], key) + [terminals[n]]
  }

  function SetOne(c: Checks, terminals: seq<Terminal>, key: string, entry: Setting): seq<Terminal> {
    if !c.brokerKey(key) then terminals
    else match entry
      case Remove => Without(terminals, key)
      case Put(v) =>
        match c.address(v)
        case None => terminals
        case Some(url) => Without(terminals, key) + [Terminal(key, url)]
  }

  function SetAll(c: Checks, terminals: seq<Terminal>, entries: seq<(string, Setting)>): seq<Terminal> {
    if entries == [] then terminals
    else
      var n := |entries| - 1;
      SetOne(c, SetAll(c, terminals, entries[..n]), entries[n].0, entries[n].1)
  }

  function Newest(terminals: seq<Terminal>): seq<Terminal> {
    if |terminals| > MAX_BROKER_TERMINALS then terminals[|terminals| - MAX_BROKER_TERMINALS..] else terminals
  }

  method SanitizeBrokerTerminals(c: Checks, entries: seq<(string, Setting)>, current: seq<Terminal>)
    returns (result: seq<Terminal>)
    ensures result == Newest(SetAll(c, current, entries))
  {
    result := current;
    for i := 0 to |entries|
      invariant result == SetAll(c, current, entries[..i])
    {
      assert entries[..i+1][..i] == entries[..i];
      var key, entry := entries[i].0, entries[i].1;
      if !c.brokerKey(key) { continue; }
      if entry == Remove {
        result := Without(result, key);
        continue;
      }
      var checked := c.address(entry.value);
      if checked.Some? {
        result := Without(result, key);
        result := result + [Terminal(key, checked.value)];
      }
    }
    assert entries[..|entries|] == entries;
    ghost var all := result;
    while |result| > MAX_BROKER_TERMINALS
      invariant |result| <= |all| && result == all[|all| - |result|..]
      invariant |all| > MAX_BROKER_TERMINALS ==> |result| >= MAX_BROKER_TERMINALS
      invariant |all| <= MAX_BROKER_TERMINALS ==> result == all
    {
      result := result[1..];
    }
  }

  // ---- a whole document -----------------------------------------------------------------------------

  /** `null` clears a selection, an invalid one changes nothing, and none outlives its account. */
  function Selected(c: Checks, was: Value, patched: Option<Setting>, accounts: Value): Value {
    var chosen :=
      if !(patched.Some? && patched.value.Put?) then was
      else if patched.value.value == NULL then NULL
      else match c.selection(patched.value.value, accounts) case Some(v) => v case None => was;
    match c.selection(chosen, accounts) case Some(v) => v case None => NULL
  }

  function Plain(c: Checks, d: Document, p: Patch, l: Leaf): Value
    requires l in d.settings
  {
    match Lookup(p, l)
    case Some(Put(v)) => (match c.normal(l, v) case Some(n) => n case None => d.settings[l])
    case _ => d.settings[l]
  }

  function MergedSetting(c: Checks, d: Document, p: Patch, l: Leaf): Value
    requires l in d.settings && ACCOUNTS in d.settings
  {
    if l == SELECTION then Selected(c, d.settings[l], Lookup(p, l), Plain(c, d, p, ACCOUNTS))
    else Plain(c, d, p, l)
  }

  /** `entries` are the broker addresses of the patch in the order the object yields them. */
  function MergeDocument(c: Checks, d: Document, p: Patch, entries: seq<(string, Setting)>): Document
    requires ACCOUNTS in d.settings
  {
    Document(map l | l in d.settings :: MergedSetting(c, d, p, l), Newest(SetAll(c, d.terminals, entries)))
  }

  ghost predicate EntriesOf(entries: seq<(string, Setting)>, p: Patch) {
    && (forall i, j :: 0 <= i < j < |entries| ==> entries[i].0 != entries[j].0)
    && (forall k: string, s: Setting :: (k, s) in entries <==> Lookup(p, BrokerTerminal(k)) == Some(s))
  }

  // ---- the document as settings -----------------------------------------------------------------------

  function Addresses(terminals: seq<Terminal>): Workspace {
    if terminals == [] then map[]
    else
      var n := |terminals| - 1;
      Addresses(terminals[..n])[BrokerTerminal(terminals[n].key) := terminals[n].url]
  }

  function View(d: Document): Workspace {
    d.settings + Addresses(d.terminals)
  }

  /** Every value the patch names is one the checks leave as it is; the selection is looked at separately. */
  ghost predicate ValidPatch(c: Checks, p: Patch) {
    forall l: Leaf :: Lookup(p, l).Some? ==> ValidSetting(c, l, Lookup(p, l).value)
  }

  predicate ValidSetting(c: Checks, l: Leaf, s: Setting) {
    if l.BrokerTerminal? then c.brokerKey(l.key) && (s.Put? ==> c.address(s.value) == Some(s.value))
    else l in c.settings && s.Put? && (l != SELECTION ==> c.normal(l, s.value) == Some(s.value))
  }

  /** The selection the merge would leave behind is still an account that is there, or none. */
  predicate SelectionStands(c: Checks, d: Document, p: Patch)
    requires SELECTION in d.settings && ACCOUNTS in d.settings
  {
    var named := Lookup(p, SELECTION);
    var v := if named.Some? && named.value.Put? then named.value.value else d.settings[SELECTION];
    v == NULL || c.selection(v, Plain(c, d, p, ACCOUNTS)) == Some(v)
  }

  lemma {:induction false} AddressesHave(terminals: seq<Terminal>, l: Leaf)
    requires DistinctKeys(terminals)
    ensures l in Addresses(terminals) <==> exists i :: 0 <= i < |terminals| && l == BrokerTerminal(terminals[i].key)
    ensures forall i :: 0 <= i < |terminals| && l == BrokerTerminal(terminals[i].key) ==>
              Addresses(terminals)[l] == terminals[i].url
  {
    if terminals != [] {
      var n := |terminals| - 1;
      AddressesHave(terminals[..n], l);
      if l in Addresses(terminals[..n]) {
        var i :| 0 <= i < n && l == BrokerTerminal(terminals[..n][i].key);
        assert l == BrokerTerminal(terminals[i].key);
      }
      if l == BrokerTerminal(terminals[n].key) {
        assert l in Addresses(terminals);
      }
      forall i | 0 <= i < |terminals| && l == BrokerTerminal(terminals[i].key)
        ensures l in Addresses(terminals) && Addresses(terminals)[l] == terminals[i].url
      {
        if i < n { assert l == BrokerTerminal(terminals[..n][i].key); }
      }
    }
  }

  lemma {:induction false} WithoutHas(terminals: seq<Terminal>, key: string, t: Terminal)
    ensures t in Without(terminals, key) <==> t in terminals && t.key != key
  {
    if terminals != [] {
      var n := |terminals| - 1;
      WithoutHas(terminals[..n], key, t);
      assert terminals == terminals[..n] + [terminals[n]];
    }
  }

  lemma DistinctMore(terminals: seq<Terminal>, t: Terminal)
    requires DistinctKeys(terminals) && forall u :: u in terminals ==> u.key != t.key
    ensures DistinctKeys(terminals + [t])
  {
    forall i | 0 <= i < |terminals| ensures terminals[i].key != t.key { assert terminals[i] in terminals; }
  }

  lemma NotAgain(terminals: seq<Terminal>, n: nat, u: Terminal)
    requires DistinctKeys(terminals) && n < |terminals| && u in terminals[..n]
    ensures u.key != terminals[n].key
  {
    var i :| 0 <= i < n && terminals[..n][i] == u;
    assert terminals[i] == u;
  }

  lemma {:induction false} WithoutKeeps(terminals: seq<Terminal>, key: string)
    requires DistinctKeys(terminals)
    ensures DistinctKeys(Without(terminals, key))
    ensures Addresses(Without(terminals, key)) == Addresses(terminals) - {BrokerTerminal(key)}
  {
    if terminals != [] {
      var n := |terminals| - 1;
      var rest, t := Without(terminals[..n], key), terminals[n];
      WithoutKeeps(terminals[..n], key);
      hide DistinctKeys, Addresses;
      assert terminals == terminals[..n] + [t];
      AddressesMore(terminals[..n], t);
      MinusAfterUpdate(Addresses(terminals[..n]), BrokerTerminal(t.key), t.url, BrokerTerminal(key));
      if t.key != key {
        AddressesMore(rest, t);
        forall u | u in rest ensures u.key != t.key {
          WithoutHas(terminals[..n], key, u);
          NotAgain(terminals, n, u);
        }
        DistinctMore(rest, t);
      }
    }
  }

  lemma MinusAfterUpdate(w: Workspace, l: Leaf, v: Value, gone: Leaf)
    ensures w[l := v] - {gone} == if l == gone then w - {gone} else (w - {gone})[l := v]
  {}

  lemma AddressesMore(terminals: seq<Terminal>, t: Terminal)
    ensures Addresses(terminals + [t]) == Addresses(terminals)[BrokerTerminal(t.key) := t.url]
  {
    assert (terminals + [t])[..|terminals|] == terminals;
  }

  /** What one valid entry does to the addresses. */
  lemma SetOneSets(c: Checks, terminals: seq<Terminal>, key: string, entry: Setting)
    requires DistinctKeys(terminals) && ValidSetting(c, BrokerTerminal(key), entry)
    ensures var next := SetOne(c, terminals, key, entry);
            && DistinctKeys(next)
            && Addresses(next) == Over(Addresses(terminals), map[BrokerTerminal(key) := entry])
  {
    hide DistinctKeys, Addresses, Without;
    WithoutKeeps(terminals, key);
    var rest := Without(terminals, key);
    if entry.Put? {
      AddressesMore(rest, Terminal(key, entry.value));
      forall u | u in rest ensures u.key != key { WithoutHas(terminals, key, u); }
      DistinctMore(rest, Terminal(key, entry.value));
    }
  }

  function OverridesOf(entries: seq<(string, Setting)>): Overrides {
    if entries == [] then map[]
    else
      var n := |entries| - 1;
      OverridesOf(entries[..n]) + map[BrokerTerminal(entries[n].0) := entries[n].1]
  }

  lemma {:induction false} SetAllSets(c: Checks, terminals: seq<Terminal>, entries: seq<(string, Setting)>)
    requires DistinctKeys(terminals)
    requires forall i :: 0 <= i < |entries| ==> ValidSetting(c, BrokerTerminal(entries[i].0), entries[i].1)
    ensures DistinctKeys(SetAll(c, terminals, entries))
    ensures Addresses(SetAll(c, terminals, entries)) == Over(Addresses(terminals), OverridesOf(entries))
  {
    hide DistinctKeys, Addresses, SetOne, Over, ValidSetting;
    if entries == [] {
      NothingOver(Addresses(terminals));
    } else {
      var n := |entries| - 1;
      SetAllSets(c, terminals, entries[..n]);
      SetOneSets(c, SetAll(c, terminals, entries[..n]), entries[n].0, entries[n].1);
      OverOver(Addresses(terminals), OverridesOf(entries[..n]), map[BrokerTerminal(entries[n].0) := entries[n].1]);
    }
  }

  lemma {:induction false} OverridesHave(entries: seq<(string, Setting)>, p: Patch, n: nat, l: Leaf)
    requires EntriesOf(entries, p) && n <= |entries|
    ensures l in OverridesOf(entries[..n]) ==> l.BrokerTerminal? && Lookup(p, l) == Some(OverridesOf(entries[..n])[l])
    ensures l.BrokerTerminal? && (exists i :: 0 <= i < n && entries[i].0 == l.key) ==> l in OverridesOf(entries[..n])
  {
    hide Lookup;
    if n > 0 {
      OverridesHave(entries, p, n - 1, l);
      assert entries[..n][..n-1] == entries[..n-1];
      var k, s := entries[n-1].0, entries[n-1].1;
      assert entries[n-1] == (k, s) && (k, s) in entries;
    }
  }

  /** The overrides of the entries are what the patch says about brokers. */
  lemma OverridesAreThePatch(entries: seq<(string, Setting)>, p: Patch, l: Leaf)
    requires EntriesOf(entries, p)
    ensures l in OverridesOf(entries) <==> l.BrokerTerminal? && Lookup(p, l).Some?
    ensures l in OverridesOf(entries) ==> Lookup(p, l) == Some(OverridesOf(entries)[l])
  {
    hide Lookup;
    OverridesHave(entries, p, |entries|, l);
    assert entries[..|entries|] == entries;
    if l.BrokerTerminal? && Lookup(p, l).Some? {
      assert (l.key, Lookup(p, l).value) in entries;
    }
  }

  // ---- exactly when merging is overriding ---------------------------------------------------------------

  lemma AddressesAreBrokers(terminals: seq<Terminal>, l: Leaf)
    requires DistinctKeys(terminals) && !l.BrokerTerminal?
    ensures l !in Addresses(terminals)
  {
    AddressesHave(terminals, l);
  }

  lemma MergeAt(w: Workspace, p: Patch, l: Leaf)
    ensures Get(Merge(w, p), l)
         == match Lookup(p, l) case None => Get(w, l) case Some(Remove) => None case Some(Put(v)) => Some(v)
  {
    hide Lookup, Names;
    NamesAreLookups(p, l);
  }

  lemma ViewAt(d: Document, l: Leaf)
    requires DistinctKeys(d.terminals) && (forall k :: k in d.settings ==> !k.BrokerTerminal?)
    ensures Get(View(d), l) == if l.BrokerTerminal? then Get(Addresses(d.terminals), l) else Get(d.settings, l)
  {
    if !l.BrokerTerminal? { AddressesAreBrokers(d.terminals, l); }
  }

  /** What a merge leaves for one setting: the override, except that a selection which does not stand falls. */
  lemma SettingMerged(c: Checks, d: Document, p: Patch, l: Leaf)
    requires Sound(c) && WellFormed(c, d) && ValidPatch(c, p) && l in c.settings
    ensures Some(MergedSetting(c, d, p, l)) == Get(Merge(View(d), p), l) <==> l != SELECTION || SelectionStands(c, d, p)
  {
    hide Lookup, Merge;
    MergeAt(View(d), p, l);
    ViewAt(d, l);
    if Lookup(p, l).Some? { assert ValidSetting(c, l, Lookup(p, l).value); }
    if l == SELECTION { SelectedOrFallen(c, d.settings[l], Lookup(p, l), Plain(c, d, p, ACCOUNTS)); }
  }

  lemma SelectedOrFallen(c: Checks, was: Value, patched: Option<Setting>, accounts: Value)
    requires Sound(c) && (patched.Some? ==> patched.value.Put?)
    ensures var v := if patched.Some? then patched.value.value else was;
            Selected(c, was, patched, accounts) == v <==> v == NULL || c.selection(v, accounts) == Some(v)
  {
    var v := if patched.Some? then patched.value.value else was;
    if patched.Some? && v != NULL && c.selection(v, accounts).None? {
      assert c.selection(was, accounts).Some? ==> c.selection(was, accounts).value != v;
    }
  }

  /** What a merge leaves of the addresses: the override, as long as there are no more than twenty. */
  lemma AddressesMerged(c: Checks, d: Document, p: Patch, entries: seq<(string, Setting)>, l: Leaf)
    requires Sound(c) && WellFormed(c, d) && ValidPatch(c, p) && EntriesOf(entries, p) && l.BrokerTerminal?
    ensures DistinctKeys(SetAll(c, d.terminals, entries))
    ensures Get(Addresses(SetAll(c, d.terminals, entries)), l) == Get(Merge(View(d), p), l)
  {
    forall i | 0 <= i < |entries| ensures ValidSetting(c, BrokerTerminal(entries[i].0), entries[i].1) {
      assert (entries[i].0, entries[i].1) in entries;
      assert Lookup(p, BrokerTerminal(entries[i].0)) == Some(entries[i].1);
    }
    hide Lookup, Merge, ValidSetting, Addresses, SetAll;
    SetAllSets(c, d.terminals, entries);
    MergeAt(View(d), p, l);
    ViewAt(d, l);
    OverridesAreThePatch(entries, p, l);
  }

  /** Twenty addresses and fewer are all kept; of more the oldest are dropped. */
  lemma NewestKeepsAll(terminals: seq<Terminal>)
    requires DistinctKeys(terminals)
    ensures DistinctKeys(Newest(terminals))
    ensures Addresses(Newest(terminals)) == Addresses(terminals) <==> |terminals| <= MAX_BROKER_TERMINALS
  {
    if |terminals| > MAX_BROKER_TERMINALS {
      var oldest := BrokerTerminal(terminals[0].key);
      AddressesHave(terminals, oldest);
      AddressesHave(Newest(terminals), oldest);
      assert oldest == BrokerTerminal(terminals[0].key);
    }
  }

  /** The merged document beside the override, setting by setting. */
  lemma MergedAt(c: Checks, d: Document, p: Patch, entries: seq<(string, Setting)>, l: Leaf)
    requires Sound(c) && WellFormed(c, d) && ValidPatch(c, p) && EntriesOf(entries, p)
    ensures var m, over, all := MergeDocument(c, d, p, entries), Merge(View(d), p), SetAll(c, d.terminals, entries);
            && DistinctKeys(all)
            && (l.BrokerTerminal? ==>
                  Get(View(m), l) == Get(Addresses(Newest(all)), l) && Get(over, l) == Get(Addresses(all), l))
            && (!l.BrokerTerminal? ==> Get(Addresses(all), l) == None == Get(Addresses(Newest(all)), l))
            && (!l.BrokerTerminal? && l != SELECTION ==> Get(View(m), l) == Get(over, l))
            && (Get(View(m), SELECTION) == Get(over, SELECTION) <==> SelectionStands(c, d, p))
  {
    hide Lookup, Merge, MergedSetting, SelectionStands, Addresses, SetAll, EntriesOf;
    var m := MergeDocument(c, d, p, entries);
    AddressesMerged(c, d, p, entries, BrokerTerminal(""));
    ViewAt(m, l);
    ViewAt(m, SELECTION);
    SettingMerged(c, d, p, SELECTION);
    if l.BrokerTerminal? {
      AddressesMerged(c, d, p, entries, l);
    } else {
      AddressesAreBrokers(SetAll(c, d.terminals, entries), l);
      AddressesAreBrokers(Newest(SetAll(c, d.terminals, entries)), l);
      if l in c.settings {
        SettingMerged(c, d, p, l);
      } else {
        MergeAt(View(d), p, l);
        ViewAt(d, l);
      }
    }
  }

  /** For a patch of valid values mergeWorkspace is the override of the settings the patch names exactly when no more
      than twenty addresses come together and the selected account is still there. */
  lemma MergeIsOverrideExactly(c: Checks, d: Document, p: Patch, entries: seq<(string, Setting)>)
    requires Sound(c) && WellFormed(c, d) && ValidPatch(c, p) && EntriesOf(entries, p)
    ensures WellFormed(c, MergeDocument(c, d, p, entries))
    ensures View(MergeDocument(c, d, p, entries)) == Merge(View(d), p)
       <==> |SetAll(c, d.terminals, entries)| <= MAX_BROKER_TERMINALS && SelectionStands(c, d, p)
  {
    var m, over, all := MergeDocument(c, d, p, entries), Merge(View(d), p), SetAll(c, d.terminals, entries);
    hide Merge, MergedSetting, SelectionStands, Addresses, View, SetAll, EntriesOf, ValidPatch, Sound;
    MergedAt(c, d, p, entries, SELECTION);
    NewestKeepsAll(all);
    if View(m) == over {
      forall l: Leaf ensures Get(Addresses(Newest(all)), l) == Get(Addresses(all), l) { MergedAt(c, d, p, entries, l); }
      SameEverywhere(Addresses(Newest(all)), Addresses(all));
    } else if |all| <= MAX_BROKER_TERMINALS && SelectionStands(c, d, p) {
      forall l: Leaf ensures Get(View(m), l) == Get(over, l) { MergedAt(c, d, p, entries, l); }
      SameEverywhere(View(m), over);
    }
  }

  /** An entry that names no broker, or an address that is not valid. */
  predicate Useless(c: Checks, entry: (string, Setting)) {
    !c.brokerKey(entry.0) || (entry.1.Put? && c.address(entry.1.value) == None)
  }

  lemma {:induction false} UselessEntriesChangeNothing(
    c: Checks, terminals: seq<Terminal>, entries: seq<(string, Setting)>)
    requires forall i :: 0 <= i < |entries| ==> Useless(c, entries[i])
    ensures SetAll(c, terminals, entries) == terminals
  {
    if entries != [] {
      var n := |entries| - 1;
      assert forall i :: 0 <= i < n ==> entries[..n][i] == entries[i];
      UselessEntriesChangeNothing(c, terminals, entries[..n]);
    }
  }

  /** Invalid values change nothing: a patch that holds no others leaves every document as it is, whose own selection is
      clear or stands. */
  lemma InvalidPatchChangesNothing(c: Checks, d: Document, p: Patch, entries: seq<(string, Setting)>)
    requires Sound(c) && WellFormed(c, d) && EntriesOf(entries, p)
    requires forall i :: 0 <= i < |entries| ==> Useless(c, entries[i])
    requires forall l :: l in d.settings && l != SELECTION && Lookup(p, l).Some? && Lookup(p, l).value.Put? ==>
               c.normal(l, Lookup(p, l).value.value) == None
    requires Lookup(p, SELECTION).Some? && Lookup(p, SELECTION).value.Put? ==>
               && Lookup(p, SELECTION).value.value != NULL
               && c.selection(Lookup(p, SELECTION).value.value, d.settings[ACCOUNTS]) == None
    requires d.settings[SELECTION] == NULL
          || c.selection(d.settings[SELECTION], d.settings[ACCOUNTS]) == Some(d.settings[SELECTION])
    ensures MergeDocument(c, d, p, entries) == d
  {
    UselessEntriesChangeNothing(c, d.terminals, entries);
    hide Lookup, SetAll, EntriesOf, DistinctKeys;
    assert MergeDocument(c, d, p, entries).settings == d.settings;
  }
}
