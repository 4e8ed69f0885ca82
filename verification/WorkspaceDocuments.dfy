// The save protocol on whole documents: what the hook shows and what the server keeps are documents changed by
// mergeWorkspace (src/hooks/useTerminalWorkspace.ts, src/app/api/terminal/workspace/route.ts). They follow the
// protocol of the module WorkspaceSync as long as the list of broker addresses cannot overflow.

module WorkspaceDocuments {
  import opened Common
  import opened WorkspacePatches
  import opened WorkspaceMerge
  import opened WorkspaceSync

  // ---- the protocol on documents ---------------------------------------------------------------------

  /** What the hook shows, what the server keeps, and what a read of the stored copy brings. */
  datatype Documents = Documents(screen: Document, stored: Document, copy: Document)

  /** `e` is `d` after mergeWorkspace, in whatever order the patch yields its addresses. */
  ghost predicate Merges(c: Checks, d: Document, p: Patch, e: Document) {
    ACCOUNTS in d.settings && exists entries :: EntriesOf(entries, p) && e == MergeDocument(c, d, p, entries)
  }

  /** The merge drops no address, and no selection falls. */
  ghost predicate Whole(c: Checks, d: Document, p: Patch, e: Document) {
    && ACCOUNTS in d.settings && SELECTION in d.settings && SelectionStands(c, d, p)
    && exists entries ::
         && EntriesOf(entries, p) && e == MergeDocument(c, d, p, entries)
         && |SetAll(c, d.terminals, entries)| <= MAX_BROKER_TERMINALS
  }

  ghost predicate Step(c: Checks, s: System, e: Event, a: Documents, b: Documents) {
    if !Enabled(s, e) then b == a
    else match e
      case Update(p) => Merges(c, a.screen, p, b.screen) && b == a.(screen := b.screen)
      case Apply => Merges(c, a.stored, s.client.sender.patch, b.stored) && b == a.(stored := b.stored)
      case ApplyLate(i) => Merges(c, a.stored, s.late[i], b.stored) && b == a.(stored := b.stored)
      case Read => b == a.(copy := a.stored)
      case ReadAnswered =>
        && b == a.(screen := b.screen)
        && b.screen == (if s.load.copy.None? then a.screen else if s.client.sinceMount.None? then a.copy else b.screen)
        && (s.load.copy.Some? && s.client.sinceMount.Some? ==> Merges(c, a.copy, s.client.sinceMount.value, b.screen))
      case _ => b == a
  }

  /** The merge of a step, if there is one, is whole. What the page shows before the load is overwritten by it. */
  ghost predicate WholeStep(c: Checks, s: System, e: Event, a: Documents, b: Documents) {
    Enabled(s, e) ==>
      match e
      case Update(p) => s.load == Finished(true) ==> Whole(c, a.screen, p, b.screen)
      case Apply => Whole(c, a.stored, s.client.sender.patch, b.stored)
      case ApplyLate(i) => Whole(c, a.stored, s.late[i], b.stored)
      case ReadAnswered =>
        s.load.copy.Some? && s.client.sinceMount.Some? ==> Whole(c, a.copy, s.client.sinceMount.value, b.screen)
      case _ => true
  }

  /** `ds` are the documents before, between and after the events. */
  ghost predicate Follows(c: Checks, start: System, es: seq<Event>, ds: seq<Documents>) {
    |ds| == |es| + 1 && forall i :: 0 <= i < |es| ==> Step(c, After(start, es[..i]), es[i], ds[i], ds[i+1])
  }

  ghost predicate WholeSteps(c: Checks, start: System, es: seq<Event>, ds: seq<Documents>)
    requires |ds| == |es| + 1
  {
    forall i :: 0 <= i < |es| ==> WholeStep(c, After(start, es[..i]), es[i], ds[i], ds[i+1])
  }

  ghost predicate ValidOption(c: Checks, p: Option<Patch>) {
    p.Some? ==> ValidPatch(c, p.value)
  }

  ghost predicate Shows(c: Checks, d: Document, w: Workspace) {
    WellFormed(c, d) && View(d) == w
  }

  /** The documents show the workspaces of the protocol, the one on the screen from the load on. */
  ghost predicate Shadows(c: Checks, s: System, d: Documents) {
    && (s.load == Finished(true) ==> Shows(c, d.screen, s.client.screen))
    && Shows(c, d.stored, s.stored)
    && (s.load.UnderWay? && s.load.copy.Some? ==> Shows(c, d.copy, s.load.copy.value))
    && AllValid(c, s)
  }

  /** Every patch that is kept, waits, travels or may come late has valid values only. */
  ghost predicate AllValid(c: Checks, s: System) {
    && ValidOption(c, s.client.sinceMount) && ValidOption(c, s.client.pending)
    && (s.client.sender.Posting? ==> ValidPatch(c, s.client.sender.patch))
    && (forall p :: p in s.late ==> ValidPatch(c, p))
  }

  lemma WholeMergeOverrides(c: Checks, d: Document, p: Patch, e: Document, w: Workspace)
    requires Sound(c) && Shows(c, d, w) && ValidPatch(c, p) && Whole(c, d, p, e)
    ensures Shows(c, e, Merge(w, p))
  {
    hide Merge, View, SetAll, MergeDocument, ValidPatch, SelectionStands;
    var entries :|
      && EntriesOf(entries, p) && e == MergeDocument(c, d, p, entries)
      && |SetAll(c, d.terminals, entries)| <= MAX_BROKER_TERMINALS;
    MergeIsOverrideExactly(c, d, p, entries);
  }

  lemma CombineStaysValid(c: Checks, a: Option<Patch>, b: Patch)
    requires ValidOption(c, a) && ValidPatch(c, b)
    ensures ValidPatch(c, Combine(a, b))
  {
    hide Lookup, Combine;
    forall l: Leaf | Lookup(Combine(a, b), l).Some? ensures ValidSetting(c, l, Lookup(Combine(a, b), l).value) {
      LookupOfCombine(a, b, l);
    }
  }

  lemma EmptyIsValid(c: Checks)
    ensures ValidPatch(c, EMPTY)
  {
  }

  lemma UpdateStaysValid(c: Checks, s: System, p: Patch)
    requires AllValid(c, s) && ValidPatch(c, p)
    ensures AllValid(c, Next(s, Update(p)))
  {
    hide ValidPatch, Merge, Combine, Asked, Answered, TakePending, Loaded;
    CombineStaysValid(c, s.client.sinceMount, p);
    CombineStaysValid(c, s.client.pending, p);
  }

  lemma AnswerStaysValid(c: Checks, s: System, outcome: Outcome)
    requires AllValid(c, s) && Enabled(s, Answer(outcome))
    ensures AllValid(c, Next(s, Answer(outcome)))
  {
    hide ValidPatch, Merge, Combine, Asked, Changed, TakePending, Loaded;
    EmptyIsValid(c);
    var newer := if s.client.pending.Some? then s.client.pending.value else EMPTY;
    CombineStaysValid(c, Some(s.client.sender.patch), newer);
  }

  lemma NoMoreLate(s: System, e: Event)
    requires Enabled(s, e) ==> !e.Answer?
    ensures forall p :: p in Next(s, e).late ==> p in s.late
  {
    hide Merge, Changed, Asked, TakePending, Loaded;
  }

  lemma OthersStayValid(c: Checks, s: System, e: Event)
    requires AllValid(c, s) && !e.Update? && (Enabled(s, e) ==> !e.Answer?)
    requires forall p :: p in Next(s, e).late ==> p in s.late
    ensures AllValid(c, Next(s, e))
  {
    hide ValidPatch, Merge, Combine, Changed, Answered;
  }

  lemma StepStaysValid(c: Checks, s: System, e: Event)
    requires AllValid(c, s) && (e.Update? ==> ValidPatch(c, e.patch))
    ensures AllValid(c, Next(s, e))
  {
    if e.Update? {
      UpdateStaysValid(c, s, e.patch);
    } else if e.Answer? && Enabled(s, e) {
      AnswerStaysValid(c, s, e.outcome);
    } else {
      NoMoreLate(s, e);
      OthersStayValid(c, s, e);
    }
  }

  lemma LoadShadows(c: Checks, s: System, a: Documents, b: Documents)
    requires Sound(c) && Shadows(c, s, a) && Enabled(s, ReadAnswered)
    requires Step(c, s, ReadAnswered, a, b) && WholeStep(c, s, ReadAnswered, a, b)
    ensures Shows(c, b.stored, s.stored)
    ensures s.load.copy.Some? ==> Shows(c, b.screen, Loaded(s.client, s.load.copy.value).screen)
  {
    hide Shows, ValidPatch, Merge, Merges, Whole;
    if s.load.copy.Some? && s.client.sinceMount.Some? {
      WholeMergeOverrides(c, a.copy, s.client.sinceMount.value, b.screen, s.load.copy.value);
    }
  }

  lemma UpdateShadows(c: Checks, s: System, p: Patch, a: Documents, b: Documents)
    requires Sound(c) && Shadows(c, s, a) && ValidPatch(c, p)
    requires Step(c, s, Update(p), a, b) && WholeStep(c, s, Update(p), a, b)
    ensures Shadows(c, Next(s, Update(p)), b)
  {
    StepStaysValid(c, s, Update(p));
    hide Shows, ValidPatch, Merge, Merges, Whole, Combine, AllValid;
    if s.load == Finished(true) { WholeMergeOverrides(c, a.screen, p, b.screen, s.client.screen); }
  }

  lemma ApplyShadows(c: Checks, s: System, e: Event, a: Documents, b: Documents)
    requires Sound(c) && Shadows(c, s, a) && Enabled(s, e) && (e.Apply? || e.ApplyLate?)
    requires Step(c, s, e, a, b) && WholeStep(c, s, e, a, b)
    ensures Shadows(c, Next(s, e), b)
  {
    StepStaysValid(c, s, e);
    hide Shows, ValidPatch, Merge, Merges, Whole, Combine, Changed, Answered, Asked, TakePending, Loaded;
    var p := if e.Apply? then s.client.sender.patch else s.late[e.i];
    WholeMergeOverrides(c, a.stored, p, b.stored, s.stored);
  }

  lemma OthersShadow(c: Checks, s: System, e: Event, a: Documents, b: Documents)
    requires Shadows(c, s, a) && Enabled(s, e) && Step(c, s, e, a, b)
    requires !e.Update? && !e.Apply? && !e.ApplyLate? && !e.ReadAnswered?
    ensures Shadows(c, Next(s, e), b)
  {
    StepStaysValid(c, s, e);
    hide Shows, ValidPatch, AllValid, Merge, Merges, Combine, Changed, Loaded;
  }

  lemma StepShadows(c: Checks, s: System, e: Event, a: Documents, b: Documents)
    requires Sound(c) && Shadows(c, s, a) && (e.Update? ==> ValidPatch(c, e.patch))
    requires Step(c, s, e, a, b) && WholeStep(c, s, e, a, b)
    ensures Shadows(c, Next(s, e), b)
  {
    if !Enabled(s, e) {
      hide Shows, AllValid, Enabled, WholeStep;
    } else if e.ReadAnswered? {
      StepStaysValid(c, s, e);
      LoadShadows(c, s, a, b);
      hide Shows, ValidPatch, Loaded, AllValid;
    } else {
      hide Shadows, Step, WholeStep, Next;
      match e {
        case Update(p) => UpdateShadows(c, s, p, a, b);
        case Apply => ApplyShadows(c, s, e, a, b);
        case ApplyLate(_) => ApplyShadows(c, s, e, a, b);
        case _ => OthersShadow(c, s, e, a, b);
      }
    }
  }

  lemma {:induction false} DocumentsShadow(
    c: Checks, local: Workspace, persisted: bool, es: seq<Event>, ds: seq<Documents>)
    requires Sound(c) && |ds| == |es| + 1 && WellFormed(c, ds[0].stored)
    requires forall e :: e in es && e.Update? ==> ValidPatch(c, e.patch)
    requires Follows(c, Mounted(local, View(ds[0].stored), persisted), es, ds)
    requires WholeSteps(c, Mounted(local, View(ds[0].stored), persisted), es, ds)
    ensures Shadows(c, After(Mounted(local, View(ds[0].stored), persisted), es), ds[|es|])
  {
    hide WellFormed, ValidPatch, View, Step, WholeStep, Next;
    var start := Mounted(local, View(ds[0].stored), persisted);
    if es != [] {
      var n := |es| - 1;
      var earlier, docs := es[..n], ds[..n+1];
      forall i | 0 <= i < n
        ensures Step(c, After(start, earlier[..i]), earlier[i], docs[i], docs[i+1])
        ensures WholeStep(c, After(start, earlier[..i]), earlier[i], docs[i], docs[i+1])
      {
        assert earlier[..i] == es[..i];
      }
      forall e | e in earlier && e.Update? ensures ValidPatch(c, e.patch) { assert e in es; }
      DocumentsShadow(c, local, persisted, earlier, docs);
      StepShadows(c, After(start, earlier), es[n], ds[n], ds[n+1]);
    }
  }

  /** With mergeWorkspace itself: once a stored copy was loaded and nothing waits or travels, the document on the screen
      holds the first stored settings with every change on top, and the stored one holds the same if and only if nothing
      was lost, provided that no merge dropped an address or a selection. Whatever the page showed before the load is
      allowed. */
  lemma DocumentsAgree(c: Checks, local: Workspace, persisted: bool, es: seq<Event>, ds: seq<Documents>)
    requires Sound(c) && |ds| == |es| + 1 && WellFormed(c, ds[0].stored)
    requires forall e :: e in es && e.Update? ==> ValidPatch(c, e.patch)
    requires Follows(c, Mounted(local, View(ds[0].stored), persisted), es, ds)
    requires WholeSteps(c, Mounted(local, View(ds[0].stored), persisted), es, ds)
    requires Settled(After(Mounted(local, View(ds[0].stored), persisted), es))
    ensures View(ds[|es|].screen) == Over(View(ds[0].stored), AllChanges(es))
    ensures View(ds[|es|].stored) == View(ds[|es|].screen) <==>
              Lost(Mounted(local, View(ds[0].stored), persisted), es) == {}
  {
    hide WellFormed, ValidPatch, Follows, WholeSteps, View, Next, Lost;
    DocumentsShadow(c, local, persisted, es, ds);
    ScreenAndStoredCopyAgree(local, View(ds[0].stored), persisted, es);
  }

  // ---- when every merge is whole -------------------------------------------------------------------------

  /** What is in play: the brokers with an address, and the lists of accounts added by hand. */
  datatype Scope = Scope(brokers: set<string>, lists: set<Value>)

  /** A selection that stands beside every list in play: none, an account of the platform, or one that is on them
      all. */
  ghost predicate Steady(c: Checks, scope: Scope, v: Value) {
    v == NULL || forall accounts: Value :: accounts in scope.lists ==> c.selection(v, accounts) == Some(v)
  }

  /** Valid values only, addresses and lists only of those in play, and no selection that could fall. */
  ghost predicate Tame(c: Checks, scope: Scope, p: Patch) {
    forall l: Leaf :: Lookup(p, l).Some? ==> TameSetting(c, scope, l, Lookup(p, l).value)
  }

  ghost predicate TameSetting(c: Checks, scope: Scope, l: Leaf, s: Setting) {
    && ValidSetting(c, l, s)
    && (l.BrokerTerminal? ==> l.key in scope.brokers)
    && (l == ACCOUNTS && s.Put? ==> s.value in scope.lists)
    && (l == SELECTION && s.Put? ==> Steady(c, scope, s.value))
  }

  ghost predicate Calm(c: Checks, scope: Scope, d: Document) {
    && WellFormed(c, d)
    && ACCOUNTS in d.settings && d.settings[ACCOUNTS] in scope.lists
    && SELECTION in d.settings && Steady(c, scope, d.settings[SELECTION])
    && KeysIn(d.terminals, scope.brokers)
  }

  ghost predicate KeysIn(terminals: seq<Terminal>, brokers: set<string>) {
    forall t :: t in terminals ==> t.key in brokers
  }

  lemma {:induction false} DistinctKeysAreFew(terminals: seq<Terminal>, brokers: set<string>)
    requires DistinctKeys(terminals) && KeysIn(terminals, brokers)
    ensures |terminals| <= |brokers|
  {
    if terminals != [] {
      var n := |terminals| - 1;
      forall t | t in terminals[..n] ensures t.key in brokers - {terminals[n].key} { NotAgain(terminals, n, t); }
      assert terminals[n] in terminals;
      DistinctKeysAreFew(terminals[..n], brokers - {terminals[n].key});
    }
  }

  lemma {:induction false} SetAllKeysIn(
    c: Checks, terminals: seq<Terminal>, entries: seq<(string, Setting)>, brokers: set<string>)
    requires KeysIn(terminals, brokers) && forall i :: 0 <= i < |entries| ==> entries[i].0 in brokers
    ensures KeysIn(SetAll(c, terminals, entries), brokers)
  {
    if entries != [] {
      var n := |entries| - 1;
      SetAllKeysIn(c, terminals, entries[..n], brokers);
      var was := SetAll(c, terminals, entries[..n]);
      forall t | t in SetAll(c, terminals, entries) ensures t.key in brokers {
        WithoutHas(was, entries[n].0, t);
      }
    }
  }

  lemma TameIsValid(c: Checks, scope: Scope, p: Patch)
    requires Tame(c, scope, p)
    ensures ValidPatch(c, p)
  {
    hide Lookup;
  }

  lemma CalmAddresses(
    c: Checks, scope: Scope, d: Document, p: Patch, entries: seq<(string, Setting)>)
    requires Sound(c) && |scope.brokers| <= MAX_BROKER_TERMINALS
    requires Calm(c, scope, d) && Tame(c, scope, p) && EntriesOf(entries, p)
    ensures |SetAll(c, d.terminals, entries)| <= MAX_BROKER_TERMINALS
    ensures KeysIn(SetAll(c, d.terminals, entries), scope.brokers)
  {
    TameIsValid(c, scope, p);
    hide Lookup, Merge, View, ValidPatch, SetAll;
    forall i | 0 <= i < |entries| ensures entries[i].0 in scope.brokers {
      assert (entries[i].0, entries[i].1) in entries;
      assert Lookup(p, BrokerTerminal(entries[i].0)) == Some(entries[i].1);
    }
    SetAllKeysIn(c, d.terminals, entries, scope.brokers);
    AddressesMerged(c, d, p, entries, BrokerTerminal(""));
    DistinctKeysAreFew(SetAll(c, d.terminals, entries), scope.brokers);
  }

  lemma WholeMerge(c: Checks, d: Document, p: Patch, entries: seq<(string, Setting)>)
    requires ACCOUNTS in d.settings && SELECTION in d.settings && SelectionStands(c, d, p)
    requires EntriesOf(entries, p) && |SetAll(c, d.terminals, entries)| <= MAX_BROKER_TERMINALS
    ensures Whole(c, d, p, MergeDocument(c, d, p, entries))
  {
    hide EntriesOf, SetAll, SelectionStands, MergeDocument;
  }

  lemma CalmMerge(c: Checks, scope: Scope, d: Document, p: Patch, entries: seq<(string, Setting)>)
    requires Sound(c) && |scope.brokers| <= MAX_BROKER_TERMINALS
    requires Calm(c, scope, d) && Tame(c, scope, p) && EntriesOf(entries, p)
    ensures Calm(c, scope, MergeDocument(c, d, p, entries))
    ensures Whole(c, d, p, MergeDocument(c, d, p, entries))
  {
    TameIsValid(c, scope, p);
    CalmAddresses(c, scope, d, p, entries);
    SelectionStays(c, scope, d, p);
    ListStays(c, scope, d, p);
    WholeMerge(c, d, p, entries);
    MergeIsOverrideExactly(c, d, p, entries);
    hide Lookup, Merge, View, ValidPatch, SetAll, Tame, EntriesOf, Whole;
    hide SelectionStands, MergedSetting, WellFormed, Steady;
  }

  lemma ListStays(c: Checks, scope: Scope, d: Document, p: Patch)
    requires Sound(c) && Calm(c, scope, d) && Tame(c, scope, p)
    ensures MergedSetting(c, d, p, ACCOUNTS) in scope.lists
  {
    hide Lookup, Steady;
  }

  lemma SelectionStays(c: Checks, scope: Scope, d: Document, p: Patch)
    requires Sound(c) && Calm(c, scope, d) && Tame(c, scope, p)
    ensures SelectionStands(c, d, p)
    ensures Steady(c, scope, MergedSetting(c, d, p, SELECTION))
  {
    hide Lookup;
  }

  lemma CombineStaysTame(c: Checks, scope: Scope, a: Option<Patch>, b: Patch)
    requires (a.Some? ==> Tame(c, scope, a.value)) && Tame(c, scope, b)
    ensures Tame(c, scope, Combine(a, b))
  {
    hide Lookup, Combine;
    forall l: Leaf | Lookup(Combine(a, b), l).Some?
      ensures TameSetting(c, scope, l, Lookup(Combine(a, b), l).value)
    {
      LookupOfCombine(a, b, l);
    }
  }

  ghost predicate TameOption(c: Checks, scope: Scope, p: Option<Patch>) {
    p.Some? ==> Tame(c, scope, p.value)
  }

  ghost predicate AllCalm(c: Checks, scope: Scope, s: System, d: Documents) {
    && (s.load == Finished(true) ==> Calm(c, scope, d.screen))
    && Calm(c, scope, d.stored)
    && (s.load.UnderWay? && s.load.copy.Some? ==> Calm(c, scope, d.copy))
    && AllTame(c, scope, s)
  }

  ghost predicate AllTame(c: Checks, scope: Scope, s: System) {
    && TameOption(c, scope, s.client.sinceMount) && TameOption(c, scope, s.client.pending)
    && (s.client.sender.Posting? ==> Tame(c, scope, s.client.sender.patch))
    && (forall p :: p in s.late ==> Tame(c, scope, p))
  }

  lemma MergesCalmly(c: Checks, scope: Scope, d: Document, p: Patch, e: Document)
    requires Sound(c) && |scope.brokers| <= MAX_BROKER_TERMINALS
    requires Calm(c, scope, d) && Tame(c, scope, p) && Merges(c, d, p, e)
    ensures Calm(c, scope, e) && Whole(c, d, p, e)
  {
    var entries :| EntriesOf(entries, p) && e == MergeDocument(c, d, p, entries);
    CalmMerge(c, scope, d, p, entries);
  }

  lemma UpdateStaysTame(c: Checks, scope: Scope, s: System, p: Patch)
    requires AllTame(c, scope, s) && Tame(c, scope, p)
    ensures AllTame(c, scope, Next(s, Update(p)))
  {
    hide Tame, Merge, Combine, Asked, Answered, TakePending, Loaded;
    CombineStaysTame(c, scope, s.client.sinceMount, p);
    CombineStaysTame(c, scope, s.client.pending, p);
  }

  lemma AnswerStaysTame(c: Checks, scope: Scope, s: System, outcome: Outcome)
    requires AllTame(c, scope, s) && Enabled(s, Answer(outcome))
    ensures AllTame(c, scope, Next(s, Answer(outcome)))
  {
    hide Tame, Merge, Combine, Asked, Changed, TakePending, Loaded;
    EmptyIsTame(c, scope);
    var newer := if s.client.pending.Some? then s.client.pending.value else EMPTY;
    CombineStaysTame(c, scope, Some(s.client.sender.patch), newer);
  }

  lemma OthersStayTame(c: Checks, scope: Scope, s: System, e: Event)
    requires AllTame(c, scope, s) && !e.Update? && (Enabled(s, e) ==> !e.Answer?)
    requires forall p :: p in Next(s, e).late ==> p in s.late
    ensures AllTame(c, scope, Next(s, e))
  {
    hide Tame, Merge, Combine, Changed, Answered;
  }

  lemma StepStaysTame(c: Checks, scope: Scope, s: System, e: Event)
    requires AllTame(c, scope, s) && (e.Update? ==> Tame(c, scope, e.patch))
    ensures AllTame(c, scope, Next(s, e))
  {
    if e.Update? {
      UpdateStaysTame(c, scope, s, e.patch);
    } else if e.Answer? && Enabled(s, e) {
      AnswerStaysTame(c, scope, s, e.outcome);
    } else {
      NoMoreLate(s, e);
      OthersStayTame(c, scope, s, e);
    }
  }

  lemma StepStaysCalm(c: Checks, scope: Scope, s: System, e: Event, a: Documents, b: Documents)
    requires Sound(c) && |scope.brokers| <= MAX_BROKER_TERMINALS
    requires AllCalm(c, scope, s, a) && Step(c, s, e, a, b) && (e.Update? ==> Tame(c, scope, e.patch))
    ensures AllCalm(c, scope, Next(s, e), b) && WholeStep(c, s, e, a, b)
  {
    StepStaysTame(c, scope, s, e);
    hide Calm, Tame, Merge, Merges, Whole, Combine;
    if Enabled(s, e) {
      match e {
        case Update(p) => if s.load == Finished(true) { MergesCalmly(c, scope, a.screen, p, b.screen); }
        case Apply => MergesCalmly(c, scope, a.stored, s.client.sender.patch, b.stored);
        case ApplyLate(i) => MergesCalmly(c, scope, a.stored, s.late[i], b.stored);
        case ReadAnswered =>
          if s.load.copy.Some? && s.client.sinceMount.Some? {
            MergesCalmly(c, scope, a.copy, s.client.sinceMount.value, b.screen);
          }
        case _ =>
      }
    }
  }

  lemma EmptyIsTame(c: Checks, scope: Scope)
    ensures Tame(c, scope, EMPTY)
  {
  }

  /** No merge of a run drops anything if no more than twenty brokers come into play, and every selection stored or made
      is on every list of accounts that is: an account added by hand may be selected as long as it stays on the list. */
  lemma {:induction false} TameRunsAreWhole(
    c: Checks, scope: Scope, start: System, es: seq<Event>, ds: seq<Documents>)
    requires Sound(c) && |scope.brokers| <= MAX_BROKER_TERMINALS && |ds| == |es| + 1
    requires AllCalm(c, scope, start, ds[0]) && Follows(c, start, es, ds)
    requires forall e :: e in es && e.Update? ==> Tame(c, scope, e.patch)
    ensures AllCalm(c, scope, After(start, es), ds[|es|]) && WholeSteps(c, start, es, ds)
  {
    hide AllCalm, Tame, Step, WholeStep, Next;
    if es != [] {
      var n := |es| - 1;
      var earlier, docs := es[..n], ds[..n+1];
      forall i | 0 <= i < n ensures Step(c, After(start, earlier[..i]), earlier[i], docs[i], docs[i+1]) {
        assert earlier[..i] == es[..i];
      }
      forall e | e in earlier && e.Update? ensures Tame(c, scope, e.patch) { assert e in es; }
      TameRunsAreWhole(c, scope, start, earlier, docs);
      StepStaysCalm(c, scope, After(start, earlier), es[n], ds[n], ds[n+1]);
      forall i | 0 <= i < |es| ensures WholeStep(c, After(start, es[..i]), es[i], ds[i], ds[i+1]) {
        if i < n {
          assert earlier[..i] == es[..i];
          assert WholeStep(c, After(start, earlier[..i]), earlier[i], docs[i], docs[i+1]);
        }
      }
    }
  }

  /** In such a run, once a stored copy was loaded and nothing waits or travels, the document on the screen holds the
      first stored settings with every change on top, and the stored one the same, if and only if nothing was lost. */
  lemma TameDocumentsAgree(
    c: Checks, scope: Scope, local: Workspace, persisted: bool, es: seq<Event>, ds: seq<Documents>)
    requires Sound(c) && |scope.brokers| <= MAX_BROKER_TERMINALS && |ds| == |es| + 1 && Calm(c, scope, ds[0].stored)
    requires forall e :: e in es && e.Update? ==> Tame(c, scope, e.patch)
    requires Follows(c, Mounted(local, View(ds[0].stored), persisted), es, ds)
    requires Settled(After(Mounted(local, View(ds[0].stored), persisted), es))
    ensures View(ds[|es|].screen) == Over(View(ds[0].stored), AllChanges(es))
    ensures View(ds[|es|].stored) == View(ds[|es|].screen) <==>
              Lost(Mounted(local, View(ds[0].stored), persisted), es) == {}
  {
    hide WellFormed, ValidPatch, Tame, Steady, Follows, WholeSteps, View, Next, Lost;
    TameRunsAreWhole(c, scope, Mounted(local, View(ds[0].stored), persisted), es, ds);
    forall e | e in es && e.Update? ensures ValidPatch(c, e.patch) { TameIsValid(c, scope, e.patch); }
    DocumentsAgree(c, local, persisted, es, ds);
  }

  // ---- and where it does not -----------------------------------------------------------------------------

  function AddressPatch(key: string, s: Setting): Patch {
    EMPTY.(metatrader := Some(MetaTraderPatch(map[], Some(map[key := s]))))
  }

  lemma AddressPatchNames(key: string, s: Setting)
    ensures forall l :: Lookup(AddressPatch(key, s), l) == if l == BrokerTerminal(key) then Some(s) else None
    ensures EntriesOf([(key, s)], AddressPatch(key, s))
  {
  }

  lemma SetOnlyOne(c: Checks, terminals: seq<Terminal>, key: string, s: Setting)
    ensures SetAll(c, terminals, [(key, s)]) == SetOne(c, terminals, key, s)
  {
    assert [(key, s)][..0] == [];
  }

  lemma {:induction false} WithoutNothing(terminals: seq<Terminal>, key: string)
    requires forall t :: t in terminals ==> t.key != key
    ensures Without(terminals, key) == terminals
  {
    if terminals != [] {
      var n := |terminals| - 1;
      assert terminals[n] in terminals;
      WithoutNothing(terminals[..n], key);
      assert terminals == terminals[..n] + [terminals[n]];
    }
  }

  lemma WithoutLast(terminals: seq<Terminal>, t: Terminal)
    ensures Without(terminals + [t], t.key) == Without(terminals, t.key)
  {
    assert (terminals + [t])[..|terminals|] == terminals;
  }

  /** With a full list, typing an address of one more broker and clearing it again loses the first address of the list
      on the screen, which merges the two changes one after the other. The server merges them combined and keeps it.
      (The first one is the oldest, unless the list was loaded: a JSONB column does not keep the order.) */
  lemma FullListParts(c: Checks, d: Document, key: string, url: Value)
    requires Sound(c) && WellFormed(c, d) && |d.terminals| == MAX_BROKER_TERMINALS
    requires c.brokerKey(key) && c.address(url) == Some(url) && forall t :: t in d.terminals ==> t.key != key
    ensures var typed, cleared := AddressPatch(key, Put(url)), AddressPatch(key, Remove);
            && Combine(Some(typed), cleared) == cleared
            && EntriesOf([(key, Put(url))], typed) && EntriesOf([(key, Remove)], cleared)
            && var once := MergeDocument(c, d, typed, [(key, Put(url))]);
            var screen := MergeDocument(c, once, cleared, [(key, Remove)]);
            var stored := MergeDocument(c, d, cleared, [(key, Remove)]);
            && stored.terminals == d.terminals && screen.terminals == d.terminals[1..]
  {
    var ts, t := d.terminals, Terminal(key, url);
    AddressPatchNames(key, Put(url));
    AddressPatchNames(key, Remove);
    hide Lookup, EntriesOf, SetAll, Without, MergedSetting, DistinctKeys;
    assert map[key := Put(url)] + map[key := Remove] == map[key := Remove];
    var none: Fields := map[];
    assert none + none == none;
    SetOnlyOne(c, ts, key, Put(url));
    SetOnlyOne(c, ts, key, Remove);
    WithoutNothing(ts, key);
    assert Newest(ts + [t]) == ts[1..] + [t];
    SetOnlyOne(c, ts[1..] + [t], key, Remove);
    WithoutLast(ts[1..], t);
    forall u | u in ts[1..] ensures u.key != key { assert u in ts; }
    WithoutNothing(ts[1..], key);
  }

  function AccountsPatch(accounts: Value): Patch {
    EMPTY.(metatrader := Some(MetaTraderPatch(map["manualAccounts" := accounts], None)))
  }

  lemma AccountsPatchNames(accounts: Value)
    ensures forall l :: Lookup(AccountsPatch(accounts), l) == if l == ACCOUNTS then Some(Put(accounts)) else None
    ensures EntriesOf([], AccountsPatch(accounts))
  {
  }

  lemma AccountsCombine(none: Value, accounts: Value)
    ensures Combine(Some(AccountsPatch(none)), AccountsPatch(accounts)) == AccountsPatch(accounts)
  {
    assert map["manualAccounts" := none] + map["manualAccounts" := accounts] == map["manualAccounts" := accounts];
    var nothing: Fields := map[];
    assert nothing + nothing == nothing;
  }

  /** What another list of accounts makes of a document. */
  lemma OtherAccounts(c: Checks, d: Document, accounts: Value)
    requires Sound(c) && ACCOUNTS in d.settings && SELECTION in d.settings && |d.terminals| <= MAX_BROKER_TERMINALS
    requires c.normal(ACCOUNTS, accounts) == Some(accounts)
    ensures MergeDocument(c, d, AccountsPatch(accounts), []).settings ==
              d.settings[ACCOUNTS := accounts][SELECTION := MergedSetting(c, d, AccountsPatch(accounts), SELECTION)]
    ensures MergeDocument(c, d, AccountsPatch(accounts), []).terminals == d.terminals
  {
    AccountsPatchNames(accounts);
    hide Lookup, AccountsPatch, WellFormed, DistinctKeys;
  }

  /** Taking the selected account off the list and putting it back clears the selection on the screen. The server merges
      the two changes combined and keeps it. */
  lemma SelectionParts(c: Checks, d: Document, none: Value)
    requires Sound(c) && WellFormed(c, d)
    requires var selected, accounts := d.settings[SELECTION], d.settings[ACCOUNTS];
             && c.selection(selected, accounts) == Some(selected) && c.selection(selected, none) == None
             && c.normal(ACCOUNTS, none) == Some(none) && c.normal(ACCOUNTS, accounts) == Some(accounts)
    ensures var emptied, restored := AccountsPatch(none), AccountsPatch(d.settings[ACCOUNTS]);
            && Combine(Some(emptied), restored) == restored
            && EntriesOf([], emptied) && EntriesOf([], restored)
            && var screen := MergeDocument(c, MergeDocument(c, d, emptied, []), restored, []);
            var stored := MergeDocument(c, d, restored, []);
            && stored == d && screen == d.(settings := d.settings[SELECTION := NULL]) != d
  {
    var accounts := d.settings[ACCOUNTS];
    AccountsPatchNames(none);
    AccountsPatchNames(accounts);
    AccountsCombine(none, accounts);
    OtherAccounts(c, d, none);
    OtherAccounts(c, d, accounts);
    var once := MergeDocument(c, d, AccountsPatch(none), []);
    OtherAccounts(c, once, accounts);
    hide Lookup, EntriesOf, AccountsPatch, DistinctKeys, MergeDocument;
    assert once.settings == d.settings[ACCOUNTS := none][SELECTION := NULL];
    assert d.settings[ACCOUNTS := accounts][SELECTION := d.settings[SELECTION]] == d.settings;
    assert once.settings[ACCOUNTS := accounts][SELECTION := NULL] == d.settings[SELECTION := NULL];
  }
}
