/**
 * The menu option registry and its dispatch loop (class MenuBuilder).
 *
 * The option table `menu_Opts` is a dictionary kept in insertion order: `names`
 * holds the order, `opts` the entries. An entry's `mapping` is
 * `[callable, bound argument, ...]`; its elements are values of an arbitrary type
 * `V`, and what calling one of them does is handed to the dispatch loop as the
 * parameter `call`.
 */
module Menus {
  import opened Options

  /** One entry of `menu_Opts`: the display aliases ("args"), the summary and the
      action mapping. `args` and `mapping` may hold `None`, because map_opt_Args
      and map_opt_Function store whatever they are given. */
  datatype MenuOption<V> = MenuOption(args: Option<seq<string>>, summary: string, mapping: Option<seq<V>>)

  /** The entry a newly registered name starts with:
      `{"args": [], "summary": "", "mapping": []}`. */
  function DefaultOption<V>(): MenuOption<V> {
    MenuOption(Some([]), "", Some([]))
  }

  /** The option table as a value: an ordered dictionary. */
  datatype Table<V> = Table(names: seq<string>, opts: map<string, MenuOption<V>>) {

    /** The listed names are exactly the keys, each listed once. */
    ghost predicate Valid() {
      && (forall i, j :: 0 <= i < j < |names| ==> names[i] != names[j])
      && (forall k :: k in opts <==> k in names)
    }

    /** The entry for `name`, or the default one a registration would create. */
    function Get(name: string): MenuOption<V> {
      if name in opts then opts[name] else DefaultOption()
    }

    /** Dictionary assignment `menu_Opts[name] = o`: a present key keeps its
        place, a new key goes last. */
    function Put(name: string, o: MenuOption<V>): (t: Table<V>)
      ensures Valid() ==> t.Valid()
      ensures t.names == if name in opts then names else names + [name]
      ensures t.opts == opts[name := o]
    {
      Table(if name in opts then names else names + [name], opts[name := o])
    }
  }

  /** Assigning the same key twice keeps only the second value, in the place
      the first assignment gave the key. */
  lemma PutTwice<V>(t: Table<V>, name: string, o: MenuOption<V>, o': MenuOption<V>)
    ensures t.Put(name, o).Get(name) == o
    ensures t.Put(name, o).Put(name, o') == t.Put(name, o')
  {
    assert t.opts[name := o][name := o'] == t.opts[name := o'];
  }

  /** The table `add_new_Opt(name, args, summary, mapping)` leaves behind: the
      entry is created with the defaults when absent, then each field is
      overwritten when its argument was supplied — `args` and `mapping` when not
      None, `summary` when not empty. */
  function Registered<V>(t: Table<V>, name: string, args: Option<seq<string>>, summary: string,
                         mapping: Option<seq<V>>): (r: Table<V>)
    ensures t.Valid() ==> r.Valid()
    ensures r.names == if name in t.opts then t.names else t.names + [name]
    ensures name in r.opts
    ensures forall k :: k != name ==> (k in r.opts <==> k in t.opts)
    ensures forall k :: k != name && k in t.opts ==> r.opts[k] == t.opts[k]
  {
    var o := t.Get(name);
    t.Put(name, MenuOption(if args.Some? then args else o.args,
                           if summary != "" then summary else o.summary,
                           if mapping.Some? then mapping else o.mapping))
  }

  /** Registering an absent name appends exactly one entry, which holds the
      supplied fields over the defaults. */
  lemma RegisterAbsent<V>(t: Table<V>, name: string, args: Option<seq<string>>, summary: string,
                          mapping: Option<seq<V>>)
    requires t.Valid() && name !in t.opts
    ensures var r := Registered(t, name, args, summary, mapping);
      && r.names == t.names + [name]
      && |r.opts| == |t.opts| + 1
      && r.opts[name] == MenuOption(if args.Some? then args else Some([]), summary,
                                    if mapping.Some? then mapping else Some([]))
  {
  }

  /** A registration with every argument at its default leaves a present entry
      alone; this is why add_new_Opt and map_opt_* call each other only one level
      deep. */
  lemma RegisterDefaultsIsNoop<V>(t: Table<V>, name: string)
    requires t.Valid() && name in t.opts
    ensures Registered(t, name, None, "", None) == t
  {
    assert t.opts[name := t.opts[name]] == t.opts;
  }

  /** Two registrations of one name compose field by field: on each field the
      later call wins when it supplies a value, otherwise the earlier one stays. */
  lemma RegisterTwice<V>(t: Table<V>, name: string,
                         a1: Option<seq<string>>, s1: string, m1: Option<seq<V>>,
                         a2: Option<seq<string>>, s2: string, m2: Option<seq<V>>)
    ensures Registered(Registered(t, name, a1, s1, m1), name, a2, s2, m2)
         == Registered(t, name, if a2.Some? then a2 else a1, if s2 != "" then s2 else s1,
                       if m2.Some? then m2 else m1)
  {
    var r1 := Registered(t, name, a1, s1, m1);
    assert r1.names == (if name in t.opts then t.names else t.names + [name]);
    assert r1.opts[name := r1.Get(name)] == r1.opts;
  }

  /** A summary, once set, survives every later registration of the name. */
  lemma SummaryNeverCleared<V>(t: Table<V>, name: string, args: Option<seq<string>>, summary: string,
                               mapping: Option<seq<V>>)
    requires name in t.opts && t.opts[name].summary != ""
    ensures Registered(t, name, args, summary, mapping).opts[name].summary != ""
  {
  }

  /** Registering a name first with only a summary and then with only an action
      gives one entry with default aliases, the first summary and the second
      action. */
  lemma SummaryThenAction<V>(t: Table<V>, name: string, summary: string, action: seq<V>)
    requires t.Valid() && name !in t.opts
    ensures var r := Registered(Registered(t, name, None, summary, None), name, None, "", Some(action));
      && r.names == t.names + [name]
      && r.opts[name] == MenuOption(Some([]), summary, Some(action))
  {
    RegisterTwice(t, name, None, summary, None, None, "", Some(action));
    RegisterAbsent(t, name, None, summary, Some(action));
  }

  /** Why a selection is reported as invalid: the exception the loop catches. */
  datatype Cause =
    | UnknownOption(input: string)  // KeyError from the table lookup
    | MappingIsNone                 // TypeError: the stored mapping is None
    | MappingIsEmpty                // IndexError from `opt_Mappings[0]`
    | ActionRaised(text: string)    // raised by the call itself (wrong arity, not callable, ...)

  /** One unit of the loop's output. */
  datatype Line =
    | Printed(text: string)            // a `print` line
    | Prompt(text: string)             // the prompt `input` writes
    | InvalidSelection(cause: Cause)   // "Invalid option selection: [<cause>]"

  /** What calling an action did: the new state, the lines it printed and the
      text of the exception it raised, if it raised one. */
  datatype Outcome<S> = Outcome(state: S, printed: seq<string>, raised: Option<string>)

  /** One pass through the loop body after the input was read. */
  datatype Pass<S> = Exit | Continue(lines: seq<Line>, state: S)

  /** What a run of the loop produced: the output, whether `exit` ended it, how
      many inputs it read, and the state the actions left. */
  datatype Session<S> = Session(lines: seq<Line>, terminated: bool, consumed: nat, state: S)

  function Texts(ss: seq<string>): (r: seq<Line>)
    ensures |r| == |ss|
    ensures forall i :: 0 <= i < |ss| ==> r[i] == Printed(ss[i])
  {
    seq(|ss|, i requires 0 <= i < |ss| => Printed(ss[i]))
  }

  /** The output of a call: what it printed, then the report of its exception. */
  function Invoked<S>(o: Outcome<S>): seq<Line> {
    Texts(o.printed) + if o.raised.Some? then [InvalidSelection(ActionRaised(o.raised.value))] else []
  }

  /** The loop body for one input against the snapshot of the table: look the
      input up, stop on `exit`, otherwise call `mapping[0]` with `mapping[1:]`,
      reporting every failure, then print a blank line. */
  function Step<V, S>(snapshot: map<string, MenuOption<V>>, input: string,
                      call: (S, V, seq<V>) -> Outcome<S>, s: S): (r: Pass<S>)
    ensures r.Exit? <==> input in snapshot && input == "exit"
    ensures r.Continue? ==> |r.lines| > 0 && r.lines[|r.lines| - 1] == Printed("")
  {
    if input !in snapshot then
      Continue([InvalidSelection(UnknownOption(input)), Printed("")], s)
    else if input == "exit" then
      Exit
    else
      match snapshot[input].mapping
      case None => Continue([InvalidSelection(MappingIsNone), Printed("")], s)
      case Some(m) =>
        if |m| == 0 then
          Continue([InvalidSelection(MappingIsEmpty), Printed("")], s)
        else
          var o := if |m| == 1 then call(s, m[0], []) else call(s, m[0], m[1..]);
          Continue(Invoked(o) + [Printed("")], o.state)
  }

  /** A selected option other than `exit` whose mapping is not empty calls
      `mapping[0]` with exactly `mapping[1:]`, in stored order (no arguments for a
      one-element mapping); what the call printed is shown, its exception, if any,
      is reported, and the state it left is kept. */
  lemma StepCallsAction<V, S>(snapshot: map<string, MenuOption<V>>, input: string,
                              call: (S, V, seq<V>) -> Outcome<S>, s: S)
    requires input in snapshot && input != "exit"
    requires snapshot[input].mapping.Some? && |snapshot[input].mapping.value| > 0
    ensures var m := snapshot[input].mapping.value;
            var o := call(s, m[0], m[1..]);
            Step(snapshot, input, call, s) == Continue(Invoked(o) + [Printed("")], o.state)
  {
    var m := snapshot[input].mapping.value;
    if |m| == 1 {
      assert m[1..] == [];
    }
  }

  /** An option whose mapping is None or empty is reported as invalid and the
      loop goes on with the state unchanged. */
  lemma StepWithoutAction<V, S>(snapshot: map<string, MenuOption<V>>, input: string,
                                call: (S, V, seq<V>) -> Outcome<S>, s: S)
    requires input in snapshot && input != "exit"
    requires snapshot[input].mapping.None? || snapshot[input].mapping == Some([])
    ensures Step(snapshot, input, call, s).Continue?
    ensures Step(snapshot, input, call, s).state == s
    ensures Step(snapshot, input, call, s).lines[0].InvalidSelection?
  {
  }

  /** The dispatch loop fed a finite list of inputs. Each pass prints the banner
      and the prompt, then reads one input. When the inputs run out the loop is
      left waiting at the prompt. */
  function Run<V, S>(snapshot: map<string, MenuOption<V>>, banner: seq<string>, prompt: string,
                     inputs: seq<string>, call: (S, V, seq<V>) -> Outcome<S>, s: S): (r: Session<S>)
    ensures r.consumed <= |inputs|
    ensures |r.lines| > |banner|
    decreases |inputs|
  {
    var head := Texts(banner) + [Prompt(prompt)];
    if inputs == [] then
      Session(head, false, 0, s)
    else
      match Step(snapshot, inputs[0], call, s)
      case Exit => Session(head, true, 1, s)
      case Continue(lines, s') =>
        var rest := Run(snapshot, banner, prompt, inputs[1..], call, s');
        Session(head + lines + rest.lines, rest.terminated, 1 + rest.consumed, rest.state)
  }

  /** `done` already printed and `consumed` inputs already read, followed by `rest`. */
  function Resume<S>(done: seq<Line>, consumed: nat, rest: Session<S>): Session<S> {
    Session(done + rest.lines, rest.terminated, consumed + rest.consumed, rest.state)
  }

  /** A session `r` that has read every input is left waiting at the prompt. */
  lemma ResumeAtEnd<V, S>(snapshot: map<string, MenuOption<V>>, banner: seq<string>, prompt: string,
                          inputs: seq<string>, call: (S, V, seq<V>) -> Outcome<S>, r: Session<S>,
                          done: seq<Line>, s: S)
    requires r == Resume(done, |inputs|, Run(snapshot, banner, prompt, inputs[|inputs|..], call, s))
    ensures r == Session(done + Texts(banner) + [Prompt(prompt)], false, |inputs|, s)
  {
    assert inputs[|inputs|..] == [];
  }

  /** A session `r` whose next input is `exit`, registered, ends right there. */
  lemma ResumeAtExit<V, S>(snapshot: map<string, MenuOption<V>>, banner: seq<string>, prompt: string,
                           inputs: seq<string>, call: (S, V, seq<V>) -> Outcome<S>, r: Session<S>,
                           done: seq<Line>, consumed: nat, s: S)
    requires consumed < |inputs| && Step(snapshot, inputs[consumed], call, s).Exit?
    requires r == Resume(done, consumed, Run(snapshot, banner, prompt, inputs[consumed..], call, s))
    ensures r == Session(done + Texts(banner) + [Prompt(prompt)], true, consumed + 1, s)
  {
    var tail := inputs[consumed..];
    assert tail[0] == inputs[consumed];
    RunPass(snapshot, banner, prompt, tail, call, s);
  }

  /** A session `r` whose next input is anything else makes one pass and goes on
      with the remaining inputs. */
  lemma ResumeContinue<V, S>(snapshot: map<string, MenuOption<V>>, banner: seq<string>, prompt: string,
                             inputs: seq<string>, call: (S, V, seq<V>) -> Outcome<S>, r: Session<S>,
                             done: seq<Line>, consumed: nat, s: S)
    requires consumed < |inputs| && Step(snapshot, inputs[consumed], call, s).Continue?
    requires r == Resume(done, consumed, Run(snapshot, banner, prompt, inputs[consumed..], call, s))
    ensures var p := Step(snapshot, inputs[consumed], call, s);
            r == Resume(done + Texts(banner) + [Prompt(prompt)] + p.lines, consumed + 1,
                        Run(snapshot, banner, prompt, inputs[consumed + 1..], call, p.state))
  {
    var head := Texts(banner) + [Prompt(prompt)];
    var p := Step(snapshot, inputs[consumed], call, s);
    var more := Run(snapshot, banner, prompt, inputs[consumed + 1..], call, p.state);
    RunFromContinue(snapshot, banner, prompt, inputs, call, consumed, s);
    ResumeAfter(done, head + p.lines, consumed, more);
  }

  /** Output and inputs read accumulate: resuming after one more pass is resuming
      with that pass's lines and input counted as done. */
  lemma ResumeAfter<S>(done: seq<Line>, pass: seq<Line>, consumed: nat, more: Session<S>)
    ensures Resume(done, consumed, Session(pass + more.lines, more.terminated, 1 + more.consumed, more.state))
         == Resume(done + pass, consumed + 1, more)
  {
    assert done + (pass + more.lines) == done + pass + more.lines;
  }

  /** A run from input `consumed` on, when that input does not end the loop. */
  lemma RunFromContinue<V, S>(snapshot: map<string, MenuOption<V>>, banner: seq<string>, prompt: string,
                              inputs: seq<string>, call: (S, V, seq<V>) -> Outcome<S>, consumed: nat, s: S)
    requires consumed < |inputs| && Step(snapshot, inputs[consumed], call, s).Continue?
    ensures var p := Step(snapshot, inputs[consumed], call, s);
            var more := Run(snapshot, banner, prompt, inputs[consumed + 1..], call, p.state);
            Run(snapshot, banner, prompt, inputs[consumed..], call, s)
              == Session(Texts(banner) + [Prompt(prompt)] + p.lines + more.lines, more.terminated,
                         1 + more.consumed, more.state)
  {
    var tail := inputs[consumed..];
    assert tail[0] == inputs[consumed] && tail[1..] == inputs[consumed + 1..];
    RunPass(snapshot, banner, prompt, tail, call, s);
  }

  /** One pass of a run over a non-empty input list. */
  lemma RunPass<V, S>(snapshot: map<string, MenuOption<V>>, banner: seq<string>, prompt: string,
                      inputs: seq<string>, call: (S, V, seq<V>) -> Outcome<S>, s: S)
    requires inputs != []
    ensures var head := Texts(banner) + [Prompt(prompt)];
            var p := Step(snapshot, inputs[0], call, s);
            var r := Run(snapshot, banner, prompt, inputs, call, s);
      && (p.Exit? ==> r == Session(head, true, 1, s))
      && (p.Continue? ==>
            var more := Run(snapshot, banner, prompt, inputs[1..], call, p.state);
            r == Session(head + p.lines + more.lines, more.terminated, 1 + more.consumed, more.state))
  {
  }

  /** The loop ends exactly when it reads `exit` while `exit` is a key of the
      snapshot, and then at the first such input; otherwise it reads every input.
      Either way the last thing printed is the prompt. */
  lemma {:induction false} RunStopsExactlyAtExit<V, S>(snapshot: map<string, MenuOption<V>>, banner: seq<string>,
                                                       prompt: string, inputs: seq<string>,
                                                       call: (S, V, seq<V>) -> Outcome<S>, s: S)
    ensures var r := Run(snapshot, banner, prompt, inputs, call, s);
      && (r.terminated <==> "exit" in snapshot && "exit" in inputs)
      && (r.terminated ==> 0 < r.consumed <= |inputs| && inputs[r.consumed - 1] == "exit"
                           && "exit" !in inputs[..r.consumed - 1])
      && (!r.terminated ==> r.consumed == |inputs|)
      && |r.lines| > 0 && r.lines[|r.lines| - 1] == Prompt(prompt)
    decreases |inputs|
  {
    if inputs != [] {
      var r := Run(snapshot, banner, prompt, inputs, call, s);
      match Step(snapshot, inputs[0], call, s)
      case Exit =>
      case Continue(lines, s') =>
        RunStopsExactlyAtExit(snapshot, banner, prompt, inputs[1..], call, s');
        var rest := Run(snapshot, banner, prompt, inputs[1..], call, s');
        assert inputs == [inputs[0]] + inputs[1..];
        if rest.terminated {
          assert inputs[..r.consumed - 1] == [inputs[0]] + inputs[1..][..rest.consumed - 1];
        }
    }
  }

  /** Reading `exit` neither calls exit's action nor prints the blank line: the
      output and state are those of the inputs before it, waiting at the prompt. */
  lemma {:induction false} ExitInvokesNothing<V, S>(snapshot: map<string, MenuOption<V>>, banner: seq<string>,
                                                    prompt: string, inputs: seq<string>,
                                                    call: (S, V, seq<V>) -> Outcome<S>, s: S, n: nat)
    requires n < |inputs| && inputs[n] == "exit" && "exit" in snapshot && "exit" !in inputs[..n]
    ensures var r := Run(snapshot, banner, prompt, inputs, call, s);
            var before := Run(snapshot, banner, prompt, inputs[..n], call, s);
      && r.terminated && r.consumed == n + 1
      && r.lines == before.lines && r.state == before.state
    decreases n
  {
    if n > 0 {
      assert inputs[0] in inputs[..n];
      match Step(snapshot, inputs[0], call, s)
      case Exit =>
      case Continue(lines, s') =>
        assert inputs[1..][..n - 1] == inputs[..n][1..];
        assert inputs[..n - 1 + 1][1..] == inputs[1..][..n - 1];
        ExitInvokesNothing(snapshot, banner, prompt, inputs[1..], call, s', n - 1);
    }
  }

  /** An input that is not a key of the snapshot never ends the loop: it is
      reported, a blank line follows, and the loop goes on with the same state. */
  lemma UnknownInputContinues<V, S>(snapshot: map<string, MenuOption<V>>, banner: seq<string>, prompt: string,
                                    input: string, rest: seq<string>,
                                    call: (S, V, seq<V>) -> Outcome<S>, s: S)
    requires input !in snapshot
    ensures Run(snapshot, banner, prompt, [input] + rest, call, s)
         == Resume(Texts(banner) + [Prompt(prompt), InvalidSelection(UnknownOption(input)), Printed("")], 1,
                   Run(snapshot, banner, prompt, rest, call, s))
  {
    assert ([input] + rest)[1..] == rest;
  }

  /** A short session: `exit` with no action, `ping` printing
      "pong"; reading "ping" then "exit" prints "pong" and a blank line, then
      ends. */
  lemma PingThenExit<V, S>(snapshot: map<string, MenuOption<V>>, ping: V,
                           call: (S, V, seq<V>) -> Outcome<S>, s: S, prompt: string)
    requires "exit" in snapshot && "ping" in snapshot
    requires snapshot["ping"].mapping == Some([ping])
    requires call(s, ping, []) == Outcome(s, ["pong"], None)
    ensures Run(snapshot, [], prompt, ["ping", "exit"], call, s)
         == Session([Prompt(prompt), Printed("pong"), Printed(""), Prompt(prompt)], true, 2, s)
  {
    assert ["ping", "exit"][1..] == ["exit"];
  }

  /** The option registry of the source, holding `menu_Opts`. */
  class MenuBuilder<V> {
    /** The keys of `menu_Opts` in insertion order. */
    var names: seq<string>
    /** The entries of `menu_Opts`. */
    var opts: map<string, MenuOption<V>>

    function MenuOpts(): Table<V>
      reads this
    {
      Table(names, opts)
    }

    ghost predicate Valid()
      reads this
    {
      MenuOpts().Valid()
    }

    constructor ()
      ensures Valid() && MenuOpts() == Table([], map[])
    {
      names, opts := [], map[];
    }

    /** add_new_Opt: create the entry if absent, then hand each supplied field
        to its map_opt_* method. */
    method AddNewOpt(name: string, args: Option<seq<string>> := None, summary: string := "",
                     mappings: Option<seq<V>> := None)
      requires Valid()
      modifies this
      ensures Valid()
      ensures MenuOpts() == Registered(old(MenuOpts()), name, args, summary, mappings)
      decreases if args.None? && summary == "" && mappings.None? then 0 else 2
    {
      ghost var t := MenuOpts();
      if name !in opts {
        names, opts := names + [name], opts[name := DefaultOption()];
      }
      ghost var o := t.Get(name);
      assert MenuOpts() == t.Put(name, o);
      if args.Some? {
        PutTwice(t, name, o, o.(args := args));
        MapOptArgs(name, args);
        o := o.(args := args);
        assert MenuOpts() == t.Put(name, o);
      }
      if summary != "" {
        PutTwice(t, name, o, o.(summary := summary));
        MapOptSummary(name, summary);
        o := o.(summary := summary);
        assert MenuOpts() == t.Put(name, o);
      }
      if mappings.Some? {
        PutTwice(t, name, o, o.(mapping := mappings));
        MapOptFunction(name, mappings);
        o := o.(mapping := mappings);
        assert MenuOpts() == t.Put(name, o);
      }
    }

    /** map_opt_Args: make sure the entry exists, then replace its aliases. */
    method MapOptArgs(name: string, args: Option<seq<string>> := None)
      requires Valid()
      modifies this
      ensures Valid()
      ensures var t := old(MenuOpts()); MenuOpts() == t.Put(name, t.Get(name).(args := args))
      decreases 1
    {
      AddNewOpt(name);
      opts := opts[name := opts[name].(args := args)];
    }

    /** map_opt_Summary: make sure the entry exists, then replace its summary. */
    method MapOptSummary(name: string, summary: string)
      requires Valid()
      modifies this
      ensures Valid()
      ensures var t := old(MenuOpts()); MenuOpts() == t.Put(name, t.Get(name).(summary := summary))
      decreases 1
    {
      AddNewOpt(name);
      opts := opts[name := opts[name].(summary := summary)];
    }

    /** map_opt_Function: make sure the entry exists, then replace its mapping. */
    method MapOptFunction(name: string, mapping: Option<seq<V>>)
      requires Valid()
      modifies this
      ensures Valid()
      ensures var t := old(MenuOpts()); MenuOpts() == t.Put(name, t.Get(name).(mapping := mapping))
      decreases 1
    {
      AddNewOpt(name);
      opts := opts[name := opts[name].(mapping := mapping)];
    }

    /** open_Menu: the dispatch loop over a snapshot of the table taken on entry.
        `banner` is what `help_Func` prints on every pass (empty when there is
        none). */
    method OpenMenu<S>(prompt: string, banner: seq<string>, inputs: seq<string>,
                       call: (S, V, seq<V>) -> Outcome<S>, s0: S)
      returns (lines: seq<Line>, terminated: bool, consumed: nat, s: S)
      ensures Session(lines, terminated, consumed, s) == Run(opts, banner, prompt, inputs, call, s0)
    {
      var menuOpts := opts;
      lines, terminated, consumed, s := [], false, 0, s0;
      while true
        invariant consumed <= |inputs| && !terminated
        invariant Run(menuOpts, banner, prompt, inputs, call, s0)
               == Resume(lines, consumed, Run(menuOpts, banner, prompt, inputs[consumed..], call, s))
        decreases |inputs| - consumed
      {
        ghost var r := Run(menuOpts, banner, prompt, inputs, call, s0);
        ghost var before, sBefore := lines, s;
        lines := lines + Texts(banner) + [Prompt(prompt)];
        if consumed == |inputs| {
          ResumeAtEnd(menuOpts, banner, prompt, inputs, call, r, before, s);
          return;
        }
        var input := inputs[consumed];
        var out: seq<Line>;
        if input !in menuOpts {
          out := [InvalidSelection(UnknownOption(input)), Printed("")];
        } else if input == "exit" {
          ResumeAtExit(menuOpts, banner, prompt, inputs, call, r, before, consumed, s);
          consumed, terminated := consumed + 1, true;
          return;
        } else {
          match menuOpts[input].mapping
          case None =>
            out := [InvalidSelection(MappingIsNone), Printed("")];
          case Some(m) =>
            if |m| == 0 {
              out := [InvalidSelection(MappingIsEmpty), Printed("")];
            } else {
              var o;
              if |m| == 1 {
                o := call(s, m[0], []);
              } else {
                o := call(s, m[0], m[1..]);
              }
              out := Invoked(o) + [Printed("")];
              s := o.state;
            }
        }
        assert Step(menuOpts, input, call, sBefore) == Continue(out, s);
        ResumeContinue(menuOpts, banner, prompt, inputs, call, r, before, consumed, sBefore);
        lines := lines + out;
        consumed := consumed + 1;
      }
    }
  }
}
