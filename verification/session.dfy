/** The script-level state of one browser session and the three steps each
    rerun of the script applies to it: set the greeting if no history exists,
    handle the Connect button, and handle a chat input. */
module Session {
  import opened Wrappers
  import opened Text
  import opened Connection
  import opened Pipeline

  const Greeting: string := "Hello! I'm a SQL assistant. Ask me anything about your database."

  /** `st.session_state`: the chat history and the connection, each absent
      until first stored. */
  datatype SessionState<H> = SessionState(history: Option<seq<Turn>>, db: Option<H>)

  /** What one chat-input step did: the new state, the reply shown (if
      `get_response` ran), and whether the not-connected warning was shown. */
  datatype Submitted<H> = Submitted(state: SessionState<H>, reply: Option<Reply>, warned: bool)

  /** One rerun of the script: an optional Connect press with the sidebar
      fields, and an optional chat input (`None` when nothing was submitted). */
  datatype Interaction = Interaction(press: Option<Credentials>, query: Option<string>)

  /** One rerun in a longer session: the user's interaction, and the driver and
      collaborators as they behave during that rerun. Each rerun has its own,
      because a database created after a failed attempt can be connected to,
      the models are nondeterministic, and a statement that ran earlier may
      have changed what the database returns. */
  datatype Step<!H> = Step(input: Interaction, connect: string -> Attempt<H>, c: Collaborators<H>)

  /** What one rerun did: the new state, the connect outcome if Connect was
      pressed, the reply if a question was answered, and the warning flag. */
  datatype Rendered<H> = Rendered(
    state: SessionState<H>, connected: Option<Result<H, ConnectError>>, reply: Option<Reply>, warned: bool)

  /** A chat input the script ignores: none, empty, or whitespace only. */
  predicate IsBlank(query: Option<string>) {
    query.None? || Strip(query.value) == ""
  }

  /** The history is only ever set to the greeting, and only when none exists. */
  function Greet<H>(s: SessionState<H>): (r: SessionState<H>)
    ensures r.history.Some? && r.db == s.db
    ensures s.history.Some? ==> r == s
    ensures s.history.None? ==> r.history.value == [Ai(Greeting)]
  {
    if s.history.None? then s.(history := Some([Ai(Greeting)])) else s
  }

  /** The Connect button: a successful `init_database` replaces the stored
      connection; a failure leaves the state as it was. The history is never
      touched. */
  function PressConnect<H>(s: SessionState<H>, c: Credentials, connect: string -> Attempt<H>)
    : (r: (SessionState<H>, Result<H, ConnectError>))
    ensures r.1 == InitDatabase(c, connect)
    ensures r.0.history == s.history
    ensures connect(Uri(c)).Opened? ==> r.0.db == Some(connect(Uri(c)).handle)
    ensures connect(Uri(c)).Raised? ==> r.0 == s
  {
    var result := InitDatabase(c, connect);
    match result.ToOption()
    case Some(db) => (s.(db := Some(db)), result)
    case None => (s, result)
  }

  /** Applying the greeting step again changes nothing: an existing history is
      never reset. */
  lemma GreetIdempotent<H>(s: SessionState<H>)
    ensures Greet(Greet(s)) == Greet(s)
  {
  }

  /** Connecting to a database the server does not know reports it by name
      and leaves the session exactly as it was, unconnected if it was. */
  lemma MissingDatabaseLeavesSession<H>(s: SessionState<H>, c: Credentials, connect: string -> Attempt<H>)
    requires connect(Uri(c)) == Raised(ProgrammingError(MySqlProgrammingError(1049)))
    ensures PressConnect(s, c, connect) == (s, Failure(DatabaseNotFound(c.database)))
  {
  }

  /** The state after the Connect step of a rerun, pressed or not. */
  function AfterConnect<H>(s: SessionState<H>, press: Option<Credentials>, connect: string -> Attempt<H>)
    : (r: SessionState<H>)
    ensures r.history == s.history
    ensures s.db.Some? ==> r.db.Some?
  {
    if press.Some? then PressConnect(s, press.value, connect).0 else s
  }

  /** The chat input. A blank input changes nothing (and the warning is shown
      when no connection exists). A non-blank input appends the Human turn,
      calls `get_response` with the history that now ends with it, and appends
      the reply as an AI turn. The script reads the connection unguarded here,
      so a non-blank input needs one. */
  function Submit<H>(s: SessionState<H>, query: Option<string>, c: Collaborators<H>): (r: Submitted<H>)
    requires s.history.Some?
    requires !IsBlank(query) ==> s.db.Some?
    ensures r.state.db == s.db
    ensures IsBlank(query) ==> r.state == s && r.reply.None? && (r.warned <==> s.db.None?)
    ensures !IsBlank(query) ==>
              && !r.warned
              && r.reply.Some?
              && r.state.history.Some?
              && r.state.history.value == s.history.value + [Human(query.value), Ai(r.reply.value.text)]
    ensures !IsBlank(query) ==>
              r.reply == Some(GetResponse(query.value, s.db.value, s.history.value + [Human(query.value)], c))
  {
    if !IsBlank(query) then
      var asked := s.history.value + [Human(query.value)];
      var reply := GetResponse(query.value, s.db.value, asked, c);
      Submitted(s.(history := Some(asked + [Ai(reply.text)])), Some(reply), false)
    else
      Submitted(s, None, s.db.None?)
  }

  /** An input is ignored exactly when it is absent or all whitespace. */
  lemma BlankMeansAllSpace(query: Option<string>)
    ensures IsBlank(query) <==> query.None? || AllSpace(query.value)
  {
  }

  /** When the generated text is refused, the AI turn recorded for the question
      is the refusal and the database was asked to run nothing. */
  lemma RefusedQuestionRecordsRefusal<H>(s: SessionState<H>, q: string, c: Collaborators<H>)
    requires s.history.Some? && s.db.Some?
    requires !IsBlank(Some(q))
    requires Validate(Generated(q, s.db.value, s.history.value + [Human(q)], c)).Rejected?
    ensures Submit(s, Some(q), c).state.history.value == s.history.value + [Human(q), Ai(Refusal)]
    ensures Executed(Submit(s, Some(q), c).reply.value.calls) == []
  {
    OnlyAcceptedSqlRuns(q, s.db.value, s.history.value + [Human(q)], c);
  }

  /** Every model call made for a question sees the history ending with that
      question's Human turn. */
  lemma ModelsSeeTheQuestionLast<H>(s: SessionState<H>, q: string, c: Collaborators<H>)
    requires s.history.Some? && s.db.Some?
    requires !IsBlank(Some(q))
    ensures var calls := Submit(s, Some(q), c).reply.value.calls;
            forall k :: 0 <= k < |calls| && IsModelCall(calls[k]) ==>
              calls[k].history != [] && calls[k].history[|calls[k].history| - 1] == Human(q)
  {
    var asked := s.history.value + [Human(q)];
    assert asked[|asked| - 1] == Human(q);
    assert Submit(s, Some(q), c).reply.value == GetResponse(q, s.db.value, asked, c);
  }

  /** Whether a rerun can proceed: a non-blank input needs a connection once
      the Connect step is done. */
  predicate Ready<H>(s: SessionState<H>, i: Interaction, connect: string -> Attempt<H>) {
    IsBlank(i.query) || AfterConnect(s, i.press, connect).db.Some?
  }

  /** One rerun of the script, in its order: greeting, Connect, chat input. */
  function Rerun<H>(s: SessionState<H>, i: Interaction, connect: string -> Attempt<H>, c: Collaborators<H>)
    : (r: Rendered<H>)
    requires Ready(s, i, connect)
    ensures r.state.history.Some?
    ensures s.db.Some? ==> r.state.db.Some?
    ensures i.press.None? ==> r.connected.None? && r.state.db == s.db
    ensures i.press.Some? ==> r.connected == Some(InitDatabase(i.press.value, connect))
    ensures IsBlank(i.query) ==> r.state.history == Greet(s).history && r.reply.None?
    ensures !IsBlank(i.query) ==>
              && r.reply.Some?
              && r.state.history.value == Greet(s).history.value + [Human(i.query.value), Ai(r.reply.value.text)]
    ensures !IsBlank(i.query) ==>
              r.reply == Some(GetResponse(i.query.value, AfterConnect(Greet(s), i.press, connect).db.value,
                                          Greet(s).history.value + [Human(i.query.value)], c))
    ensures r.warned <==> IsBlank(i.query) && AfterConnect(Greet(s), i.press, connect).db.None?
    ensures i.press.Some? && connect(Uri(i.press.value)).Opened? ==>
              r.state.db == Some(connect(Uri(i.press.value)).handle)
    ensures i.press.Some? && connect(Uri(i.press.value)).Raised? ==> r.state.db == s.db
  {
    var s1 := Greet(s);
    var s2 := AfterConnect(s1, i.press, connect);
    var connected := if i.press.Some? then Some(PressConnect(s1, i.press.value, connect).1) else None;
    var sub := Submit(s2, i.query, c);
    Rendered(sub.state, connected, sub.reply, sub.warned)
  }

  /** The questions asked so far: the contents of the Human turns, in order. */
  function Questions(h: seq<Turn>): (qs: seq<string>)
    ensures forall q :: q in qs <==> Human(q) in h
  {
    if h == [] then []
    else if h[0].Human? then [h[0].content] + Questions(h[1..])
    else Questions(h[1..])
  }

  /** The non-blank inputs of a sequence of reruns, in order. */
  function Asked<H>(steps: seq<Step<H>>): (qs: seq<string>)
  {
    if steps == [] then []
    else if IsBlank(steps[0].input.query) then Asked(steps[1..])
    else [steps[0].input.query.value] + Asked(steps[1..])
  }

  /** The inputs of two sequences of reruns put together are those of each. */
  lemma {:induction false} AskedAppend<H>(a: seq<Step<H>>, b: seq<Step<H>>)
    ensures Asked(a + b) == Asked(a) + Asked(b)
    decreases |a|
  {
    if a != [] {
      assert (a + b)[0] == a[0];
      assert (a + b)[1..] == a[1..] + b;
      AskedAppend(a[1..], b);
      var head := if IsBlank(a[0].input.query) then [] else [a[0].input.query.value];
      assert Asked(a) == head + Asked(a[1..]);
      assert Asked(a + b) == head + Asked(a[1..] + b);
      ConcatAssoc(head, Asked(a[1..]), Asked(b));
    } else {
      assert a + b == b;
    }
  }

  /** The state after a sequence of reruns on a connected session, each with
      its own driver and collaborators. A held connection is never dropped, so
      every rerun is `Ready`. */
  function RunAll<H>(s: SessionState<H>, steps: seq<Step<H>>): (r: SessionState<H>)
    requires s.db.Some?
    ensures r.db.Some?
    decreases |steps|
  {
    if steps == [] then s
    else RunAll(Rerun(s, steps[0].input, steps[0].connect, steps[0].c).state, steps[1..])
  }

  /** The shape a history has after reruns that all ran to completion: the
      greeting, then Human/AI pairs, each Human turn holding a non-blank
      question. */
  predicate WellFormed(h: seq<Turn>) {
    && |h| % 2 == 1
    && h[0] == Ai(Greeting)
    && (forall i :: 1 <= i < |h| ==> (h[i].Human? <==> i % 2 == 1))
    && (forall i :: 1 <= i < |h| && h[i].Human? ==> !AllSpace(h[i].content))
  }

  predicate Invariant<H>(s: SessionState<H>) {
    s.history.None? || WellFormed(s.history.value)
  }

  /** Appending a non-blank question and any answer keeps a history well formed. */
  lemma AppendPairWellFormed(h: seq<Turn>, q: string, a: string)
    requires WellFormed(h)
    requires !AllSpace(q)
    ensures WellFormed(h + [Human(q), Ai(a)])
  {
    var h' := h + [Human(q), Ai(a)];
    forall k | 1 <= k < |h'|
      ensures (h'[k].Human? <==> k % 2 == 1)
      ensures h'[k].Human? ==> !AllSpace(h'[k].content)
    {
      if k < |h| {
        assert h'[k] == h[k];
      }
    }
  }

  /** Every rerun that runs to completion keeps the history well formed, and
      extends it rather than rewriting it: the old history is a prefix of the
      new one. A rerun the script aborts is outside `Ready` and not covered. */
  lemma RerunPreservesInvariant<H>(s: SessionState<H>, i: Interaction, connect: string -> Attempt<H>, c: Collaborators<H>)
    requires Ready(s, i, connect)
    requires Invariant(s)
    ensures WellFormed(Rerun(s, i, connect, c).state.history.value)
    ensures s.history.Some? ==> s.history.value <= Rerun(s, i, connect, c).state.history.value
  {
    var h := Greet(s).history.value;
    var r := Rerun(s, i, connect, c);
    if !IsBlank(i.query) {
      AppendPairWellFormed(h, i.query.value, r.reply.value.text);
    }
  }

  lemma ConcatAssoc<T>(a: seq<T>, b: seq<T>, c: seq<T>)
    ensures a + b + c == a + (b + c)
  {
  }

  /** The questions of two histories put together are the questions of each. */
  lemma {:induction false} QuestionsAppend(a: seq<Turn>, b: seq<Turn>)
    ensures Questions(a + b) == Questions(a) + Questions(b)
    decreases |a|
  {
    if a != [] {
      assert (a + b)[0] == a[0];
      assert (a + b)[1..] == a[1..] + b;
      QuestionsAppend(a[1..], b);
      var head := if a[0].Human? then [a[0].content] else [];
      assert Questions(a) == head + Questions(a[1..]);
      assert Questions(a + b) == head + Questions(a[1..] + b);
      ConcatAssoc(head, Questions(a[1..]), Questions(b));
    } else {
      assert a + b == b;
    }
  }

  /** Appending one question/answer pair adds exactly that question. */
  lemma QuestionsOfPair(h: seq<Turn>, q: string, a: string)
    ensures Questions(h + [Human(q), Ai(a)]) == Questions(h) + [q]
  {
    var pair := [Human(q), Ai(a)];
    QuestionsAppend(h, pair);
    assert pair[1..] == [Ai(a)];
    assert [Ai(a)][1..] == [];
    assert Questions([Ai(a)]) == Questions([]) == [];
    assert Questions(pair) == [q] + Questions([Ai(a)]);
  }

  /** Over any sequence of reruns on a connected session, the history only
      grows, by exactly one Human and one AI turn per non-blank input. */
  lemma {:induction false} RunAllAppendsPairs<H>(s: SessionState<H>, steps: seq<Step<H>>)
    requires s.db.Some? && s.history.Some?
    ensures RunAll(s, steps).history.Some?
    ensures s.history.value <= RunAll(s, steps).history.value
    ensures |RunAll(s, steps).history.value| == |s.history.value| + 2 * |Asked(steps)|
    decreases |steps|
  {
    if steps == [] {
      assert Asked(steps) == [];
    } else {
      var step := steps[0];
      var r := Rerun(s, step.input, step.connect, step.c);
      RunAllAppendsPairs(r.state, steps[1..]);
      if IsBlank(step.input.query) {
        assert Asked(steps) == Asked(steps[1..]);
      } else {
        assert Asked(steps) == [step.input.query.value] + Asked(steps[1..]);
      }
    }
  }

  /** One rerun adds the input to the questions when it is non-blank, and
      nothing otherwise. */
  lemma RerunQuestions<H>(s: SessionState<H>, i: Interaction, connect: string -> Attempt<H>, c: Collaborators<H>)
    requires Ready(s, i, connect)
    ensures Questions(Rerun(s, i, connect, c).state.history.value) ==
            Questions(Greet(s).history.value) + (if IsBlank(i.query) then [] else [i.query.value])
  {
    var r := Rerun(s, i, connect, c);
    if !IsBlank(i.query) {
      QuestionsOfPair(Greet(s).history.value, i.query.value, r.reply.value.text);
    }
  }

  /** Over any sequence of reruns on a connected session, the Human turns added
      carry exactly the non-blank inputs, in the order they were submitted. */
  lemma {:induction false} RunAllRecordsEveryQuestion<H>(s: SessionState<H>, steps: seq<Step<H>>)
    requires s.db.Some? && s.history.Some?
    ensures RunAll(s, steps).history.Some?
    ensures Questions(RunAll(s, steps).history.value) == Questions(s.history.value) + Asked(steps)
    decreases |steps|
  {
    if steps == [] {
      assert Asked(steps) == [];
    } else {
      var step := steps[0];
      var next := Rerun(s, step.input, step.connect, step.c).state;
      var rest := steps[1..];
      RerunQuestions(s, step.input, step.connect, step.c);
      RunAllRecordsEveryQuestion(next, rest);
      var added := if IsBlank(step.input.query) then [] else [step.input.query.value];
      assert Asked(steps) == added + Asked(rest);
      var final := RunAll(next, rest);
      assert RunAll(s, steps) == final;
      ConcatAssoc(Questions(s.history.value), added, Asked(rest));
    }
  }

  /** A connect that fails never replaces or drops the connection already held,
      over any number of reruns. */
  lemma {:induction false} ConnectionPersists<H>(s: SessionState<H>, steps: seq<Step<H>>)
    requires s.db.Some?
    requires forall k :: 0 <= k < |steps| && steps[k].input.press.Some? ==>
               steps[k].connect(Uri(steps[k].input.press.value)).Raised?
    ensures RunAll(s, steps).db == s.db
    decreases |steps|
  {
    if steps != [] {
      var step := steps[0];
      var r := Rerun(s, step.input, step.connect, step.c);
      assert r.state.db == s.db;
      forall k | 0 <= k < |steps[1..]| && steps[1..][k].input.press.Some?
        ensures steps[1..][k].connect(Uri(steps[1..][k].input.press.value)).Raised?
      {
        assert steps[1..][k] == steps[k + 1];
      }
      ConnectionPersists(r.state, steps[1..]);
    }
  }
}
