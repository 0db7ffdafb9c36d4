/** Whole runs in which a client changes its subscriptions any number of times. */
module WholeRuns {
  import opened Base
  import opened Mutations
  import opened Replicas
  import opened Replication
  import opened Convergence

  // ----- Parts of a run -----

  lemma {:induction false} Slices(s: System, run: seq<Action>, i: nat, j: nat)
    requires EnabledRun(s, run) && i <= j <= |run|
    ensures EnabledRun(s, run[..i]) && EnabledRun(s, run[..j])
    ensures EnabledRun(After(s, run[..i]), run[i..j])
    ensures After(After(s, run[..i]), run[i..j]) == After(s, run[..j])
    decreases |run|, j - i
  {
    hide EnabledRun, After, Enabled, Next;
    if j < |run| {
      LastStep(s, run);
      assert run[..|run| - 1][..i] == run[..i] && run[..|run| - 1][..j] == run[..j] && run[..|run| - 1][i..j] == run[i..j];
      Slices(s, run[..|run| - 1], i, j);
    } else if i == |run| {
      assert run[..i] == run && run[i..j] == [];
      NoSteps(After(s, run));
    } else {
      LastStep(s, run);
      Slices(s, run[..|run| - 1], i, |run| - 1);
      assert run[..|run| - 1][..i] == run[..i] && run[..j] == run && run[..|run| - 1][..|run| - 1] == run[..|run| - 1];
      assert run[..|run| - 1][i..|run| - 1] == run[i..|run| - 1];
      Extend(After(s, run[..i]), run[i..|run| - 1], run[|run| - 1]);
      assert run[i..|run| - 1] + [run[|run| - 1]] == run[i..j];
    }
  }

  lemma {:induction false} StepAt(s: System, run: seq<Action>, i: nat)
    requires EnabledRun(s, run) && i < |run|
    ensures EnabledRun(s, run[..i]) && EnabledRun(s, run[..i + 1])
    ensures Enabled(After(s, run[..i]), run[i])
    ensures After(s, run[..i + 1]) == Next(After(s, run[..i]), run[i])
  {
    hide EnabledRun, After, Enabled, Next;
    Slices(s, run, i, i + 1);
    LastStep(s, run[..i + 1]);
    assert run[..i + 1][..i] == run[..i];
  }

  // ----- Changes and their loads -----

  predicate ChangesAt(run: seq<Action>, i: nat, c: nat)
    requires i < |run|
  {
    run[i].Subscribe? && run[i].c == c
  }

  predicate LoadsAt(run: seq<Action>, i: nat, c: nat)
    requires i < |run|
  {
    run[i].Load? && run[i].c == c
  }

  /** The window of the change at `i` ends before step `j`: at its load, or at once if it adds no key. */
  predicate EndsAt(run: seq<Action>, i: nat, j: nat, c: nat)
    requires i < j <= |run| && ChangesAt(run, i, c)
  {
    if run[i].add == {} then j == i + 1
    else j < |run| && LoadsAt(run, j, c) && AllSpare(run[i + 1..j], c)
  }

  /** The object escapes the change at `i`, whose window ends before step `j`. */
  ghost predicate EscapesAt(run: seq<Action>, i: nat, j: nat, c: nat, id: Id)
    requires i < j <= |run| && ChangesAt(run, i, c)
  {
    && EnabledRun(INITIAL, run[..i])
    && Opens(After(INITIAL, run[..i]), c, run[i].add, run[i].remove, run[i + 1..j])
    && Escapes(After(INITIAL, run[..i]), c, run[i].add, run[i].remove, run[i + 1..j], id)
  }

  ghost predicate NothingEscapes(run: seq<Action>, c: nat) {
    forall i, j, id :: 0 <= i < j <= |run| && ChangesAt(run, i, c) && EndsAt(run, i, j, c) ==> !EscapesAt(run, i, j, c, id)
  }

  /** After `n` steps nothing is wrong with the client, unless a load of its is due. */
  ghost predicate RightAt(run: seq<Action>, n: nat, c: nat)
    requires EnabledRun(INITIAL, run) && n <= |run|
  {
    EnabledRun(INITIAL, run[..n]) &&
    var s := After(INITIAL, run[..n]);
    c in s.clients && s.clients[c].loading.None? ==> s.clients[c].blind == {} && s.clients[c].ghosts == {}
  }

  /** A load that is due was asked for by a change since which the client did nothing else. */
  lemma {:induction false} FindChange(run: seq<Action>, n: nat, c: nat) returns (i: nat)
    requires EnabledRun(INITIAL, run) && n <= |run| && EnabledRun(INITIAL, run[..n])
    requires c in After(INITIAL, run[..n]).clients && After(INITIAL, run[..n]).clients[c].loading.Some?
    ensures i < n && ChangesAt(run, i, c) && run[i].add != {} && AllSpare(run[i + 1..n], c)
    decreases n
  {
    hide EnabledRun, After, Next, Enabled;
    if n == 0 {
      NoSteps(INITIAL);
    } else {
      StepAt(INITIAL, run, n - 1);
      var s := After(INITIAL, run[..n - 1]);
      DueBefore(s, run[n - 1], c);
      if ChangesAt(run, n - 1, c) {
        i := n - 1;
        assert run[i + 1..n] == [];
      } else {
        i := FindChange(run, n - 1, c);
        assert run[i + 1..n] == run[i + 1..n - 1] + [run[n - 1]];
      }
    }
  }

  lemma DueBefore(s: System, a: Action, c: nat)
    requires Enabled(s, a) && c in Next(s, a).clients && Next(s, a).clients[c].loading.Some?
    ensures if a.Subscribe? && a.c == c then a.add != {}
            else Spares(a, c) && c in s.clients && s.clients[c].loading.Some?
  {
    hide DocKey, Loses, Haunts, Lists;
  }

  // ----- Every state of a run -----

  lemma {:induction false} ChangeIsRight(run: seq<Action>, n: nat, c: nat)
    requires EnabledRun(INITIAL, run) && NothingEscapes(run, c) && n < |run|
    requires ChangesAt(run, n, c) && run[n].add == {}
    ensures RightAt(run, n + 1, c)
  {
    hide NothingEscapes, Inv, Loses, Haunts;
    StepAt(INITIAL, run, n);
    var s := After(INITIAL, run[..n]);
    InitialIsRight();
    RunKeepsInv(INITIAL, run[..n]);
    hide EnabledRun, After, Next, Enabled;
    WrongAfterChange(s, c, run[n].add, run[n].remove, "");
    assert run[n + 1..n + 1] == [];
    var later := After(INITIAL, run[..n + 1]).clients[c];
    forall id
      ensures !Wrong(later, id)
    {
      WrongAfterChange(s, c, run[n].add, run[n].remove, id);
      UnaddedEscapes(s, c, run[n].remove, id);
      NoEscapeAt(run, n, n + 1, c, id);
    }
    NothingWrong(later);
  }

  /** The load that ends a window leaves the client right. */
  lemma {:induction false} LoadIsRight(run: seq<Action>, n: nat, c: nat)
    requires EnabledRun(INITIAL, run) && NothingEscapes(run, c) && n < |run|
    requires LoadsAt(run, n, c)
    ensures RightAt(run, n + 1, c)
  {
    hide NothingEscapes, Inv, Escapes, EnabledRun, After, Next, Enabled;
    StepAt(INITIAL, run, n);
    LoadIsDue(After(INITIAL, run[..n]), c, run[n].docs);
    var i := FindChange(run, n, c);
    StepAt(INITIAL, run, i);
    Slices(INITIAL, run, i + 1, n);
    var s := After(INITIAL, run[..i]);
    InitialIsRight();
    RunKeepsInv(INITIAL, run[..i]);
    assert run[i] == Subscribe(c, run[i].add, run[i].remove) && run[n] == Load(c, run[n].docs);
    WrongIffEscaped(s, c, run[i].add, run[i].remove, run[i + 1..n], run[n].docs, "");
    var later := After(INITIAL, run[..n + 1]).clients[c];
    forall id
      ensures !Wrong(later, id)
    {
      WrongIffEscaped(s, c, run[i].add, run[i].remove, run[i + 1..n], run[n].docs, id);
      NoEscapeAt(run, i, n, c, id);
    }
    NothingWrong(later);
  }

  lemma LoadIsDue(s: System, c: nat, docs: seq<Doc>)
    requires Enabled(s, Load(c, docs))
    ensures c in s.clients && s.clients[c].loading.Some?
  {}

  lemma NoEscapeAt(run: seq<Action>, i: nat, j: nat, c: nat, id: Id)
    requires NothingEscapes(run, c) && i < j <= |run| && ChangesAt(run, i, c) && EndsAt(run, i, j, c)
    ensures !EscapesAt(run, i, j, c, id)
  {}

  lemma {:induction false} UnaddedEscapes(s: System, c: nat, remove: set<Key>, id: Id)
    requires Enabled(s, Subscribe(c, {}, remove))
    ensures Opens(s, c, {}, remove, [])
    ensures Loses(s.clients[c], {}, remove, s.db.store, id) || Haunts(s.clients[c], {}, remove, s.db.store, id)
            ==> Escapes(s, c, {}, remove, [], id)
  {
    hide CourseOf, DocKey;
  }

  lemma {:induction false} OtherStepIsRight(run: seq<Action>, n: nat, c: nat)
    requires EnabledRun(INITIAL, run) && n < |run| && RightAt(run, n, c)
    requires !ChangesAt(run, n, c) && !LoadsAt(run, n, c)
    ensures RightAt(run, n + 1, c)
  {
    StepAt(INITIAL, run, n);
    hide EnabledRun, After;
    var s, a := After(INITIAL, run[..n]), run[n];
    if Spares(a, c) {
      if c in s.clients {
        OneStepSpares(s, a, c, "");
        if s.clients[c].loading.None? {
          forall id
            ensures !Wrong(Next(s, a).clients[c], id)
          {
            OneStepSpares(s, a, c, id);
          }
          NothingWrong(Next(s, a).clients[c]);
        }
      }
    }
  }

  lemma {:induction false} AllStatesRight(run: seq<Action>, n: nat, c: nat)
    requires EnabledRun(INITIAL, run) && NothingEscapes(run, c) && n <= |run|
    ensures RightAt(run, n, c)
  {
    hide EnabledRun, After, Next, Enabled, NothingEscapes;
    if n == 0 {
      NoSteps(INITIAL);
      assert run[..0] == [];
    } else {
      AllStatesRight(run, n - 1, c);
      if ChangesAt(run, n - 1, c) {
        if run[n - 1].add == {} {
          ChangeIsRight(run, n - 1, c);
        } else {
          StepAt(INITIAL, run, n - 1);
          ChangeIsDue(After(INITIAL, run[..n - 1]), c, run[n - 1]);
        }
      } else if LoadsAt(run, n - 1, c) {
        LoadIsRight(run, n - 1, c);
      } else {
        OtherStepIsRight(run, n - 1, c);
      }
    }
  }

  lemma ChangeIsDue(s: System, c: nat, a: Action)
    requires Enabled(s, a) && a.Subscribe? && a.c == c && a.add != {}
    ensures c in Next(s, a).clients && Next(s, a).clients[c].loading.Some?
  {
    hide Loses, Haunts;
  }

  ghost predicate Converged(s: System, c: nat) {
    c in s.clients && s.clients[c].loading.None? && Pending(s.clients[c]) == [] ==> s.clients[c].replica == Wanted(s, c)
  }

  /**
   With any number of objects, clients and subscription changes: if no object escapes any of the client's
   changes, then whenever it has nothing pending it holds exactly the committed objects it subscribes to.
   */
  lemma {:induction false} AlwaysConverges(run: seq<Action>, c: nat)
    requires EnabledRun(INITIAL, run) && NothingEscapes(run, c)
    ensures Converged(After(INITIAL, run), c)
  {
    AllStatesRight(run, |run|, c);
    assert run[..|run|] == run;
    var s := After(INITIAL, run);
    if c in s.clients && s.clients[c].loading.None? && Pending(s.clients[c]) == [] {
      ReplicaIsView(run, c);
    }
  }

  // ----- Loads that follow at once -----

  /** Every change that adds keys is followed at once by its load. */
  predicate Prompt(run: seq<Action>, c: nat) {
    forall i :: 0 <= i < |run| - 1 && ChangesAt(run, i, c) && run[i].add != {} ==> LoadsAt(run, i + 1, c)
  }

  /** No change goes wrong on an object its load does not put right. */
  ghost predicate Harmless(run: seq<Action>, c: nat)
    requires EnabledRun(INITIAL, run)
  {
    forall i, id :: 0 <= i < |run| && ChangesAt(run, i, c) ==> HarmlessAt(run, i, c, id)
  }

  ghost predicate HarmlessAt(run: seq<Action>, i: nat, c: nat, id: Id)
    requires EnabledRun(INITIAL, run) && i < |run| && ChangesAt(run, i, c)
  {
    EnabledRun(INITIAL, run[..i]) && c in After(INITIAL, run[..i]).clients ==>
    var s, a := After(INITIAL, run[..i]), run[i];
    && (Loses(s.clients[c], a.add, a.remove, s.db.store, id) ==> Under(s.db.store, id, a.add))
    && (Haunts(s.clients[c], a.add, a.remove, s.db.store, id) ==> Under(s.db.store, id, a.add))
  }

  lemma {:induction false} PromptSpares(s: System, c: nat, add: set<Key>, remove: set<Key>, id: Id)
    requires Opens(s, c, add, remove, []) && Escapes(s, c, add, remove, [], id)
    ensures c in s.clients && !Under(s.db.store, id, add)
    ensures Loses(s.clients[c], add, remove, s.db.store, id) || Haunts(s.clients[c], add, remove, s.db.store, id)
  {
    hide Loses, Haunts, DocKey;
  }

  lemma PromptEnds(run: seq<Action>, i: nat, j: nat, c: nat)
    requires Prompt(run, c) && i < j <= |run| && ChangesAt(run, i, c)
    ensures EndsAt(run, i, j, c) ==> j == i + 1 && run[i + 1..j] == []
  {
    if j > i + 1 {
      assert run[i + 1..j][0] in run[i + 1..j];
    }
  }

  lemma {:induction false} PromptEscapesNothing(run: seq<Action>, c: nat)
    requires EnabledRun(INITIAL, run) && Prompt(run, c) && Harmless(run, c)
    ensures NothingEscapes(run, c)
  {
    forall i, j, id | 0 <= i < j <= |run| && ChangesAt(run, i, c) && EndsAt(run, i, j, c)
      ensures !EscapesAt(run, i, j, c, id)
    {
      PromptEnds(run, i, j, c);
      hide EnabledRun, After, Escapes, Opens, Loses, Haunts;
      assert HarmlessAt(run, i, c, id);
      if EscapesAt(run, i, j, c, id) {
        PromptSpares(After(INITIAL, run[..i]), c, run[i].add, run[i].remove, id);
      }
    }
  }

  /** Loads that follow at once: only what is pending at a change can make it go wrong. */
  lemma {:induction false} PromptConverges(run: seq<Action>, c: nat)
    requires EnabledRun(INITIAL, run) && Prompt(run, c) && Harmless(run, c)
    ensures Converged(After(INITIAL, run), c)
  {
    PromptEscapesNothing(run, c);
    AlwaysConverges(run, c);
  }

  /** The client has nothing pending whenever it changes its subscriptions. */
  ghost predicate Idle(run: seq<Action>, c: nat)
    requires EnabledRun(INITIAL, run)
  {
    forall i :: 0 <= i < |run| && ChangesAt(run, i, c) ==> IdleAt(run, i, c)
  }

  ghost predicate IdleAt(run: seq<Action>, i: nat, c: nat)
    requires EnabledRun(INITIAL, run) && i <= |run|
  {
    EnabledRun(INITIAL, run[..i]) && c in After(INITIAL, run[..i]).clients ==> Pending(After(INITIAL, run[..i]).clients[c]) == []
  }

  /** A change made with nothing pending by a client that converged before does no harm. */
  lemma {:induction false} IdleIsHarmless(run: seq<Action>, i: nat, c: nat, id: Id)
    requires EnabledRun(INITIAL, run) && i < |run| && ChangesAt(run, i, c) && IdleAt(run, i, c)
    requires EnabledRun(INITIAL, run[..i]) && Converged(After(INITIAL, run[..i]), c)
    ensures HarmlessAt(run, i, c, id)
  {
    StepAt(INITIAL, run, i);
    hide EnabledRun, After, Loses, Haunts;
    var s, a := After(INITIAL, run[..i]), run[i];
    IdleChange(s, c, a.add, a.remove, id);
  }

  lemma {:induction false} PrefixesToo(run: seq<Action>, n: nat, c: nat)
    requires EnabledRun(INITIAL, run) && n <= |run| && Prompt(run, c) && Idle(run, c)
    ensures EnabledRun(INITIAL, run[..n]) && Prompt(run[..n], c) && Idle(run[..n], c)
  {
    Slices(INITIAL, run, n, n);
    hide EnabledRun, After;
    forall i | 0 <= i < n && ChangesAt(run[..n], i, c)
      ensures IdleAt(run[..n], i, c)
    {
      assert ChangesAt(run, i, c);
      assert run[..n][..i] == run[..i];
      assert IdleAt(run, i, c);
    }
  }

  /**
   A client that changes its subscriptions only with nothing pending, and loads at once, always converges:
   whenever it has nothing pending it holds exactly the committed objects it subscribes to.
   */
  lemma {:induction false} IdlePromptConverges(run: seq<Action>, c: nat)
    requires EnabledRun(INITIAL, run) && Prompt(run, c) && Idle(run, c)
    ensures Converged(After(INITIAL, run), c)
    decreases |run|
  {
    forall i, id | 0 <= i < |run| && ChangesAt(run, i, c)
      ensures HarmlessAt(run, i, c, id)
    {
      PrefixesToo(run, i, c);
      IdlePromptConverges(run[..i], c);
      assert IdleAt(run, i, c);
      IdleIsHarmless(run, i, c, id);
    }
    PromptConverges(run, c);
  }
}
