/** The question-answering pipeline of `get_response`: the first model writes a
    SQL statement, a prefix test on the stripped text decides whether it may
    run, and, if so, the unstripped text is run and a second model phrases the
    result. Both models and the database are parameters, and the reply carries
    the sequence of calls made to them so that "nothing runs" can be stated. */
module Pipeline {
  import opened Text

  /** One message of the chat history: `HumanMessage` or `AIMessage`. */
  datatype Turn = Human(content: string) | Ai(content: string)

  /** The collaborators `get_response` depends on, over a database handle `H`:
      `schema` is `db.get_table_info()`, `run` is `db.run(query)`, `writeSql`
      is the SQL chain (question, history, schema) and `writeAnswer` is the
      answer chain (question, history, schema, query, response). */
  datatype Collaborators<!H> = Collaborators(
    schema: H -> string,
    run: (H, string) -> string,
    writeSql: (string, seq<Turn>, string) -> string,
    writeAnswer: (string, seq<Turn>, string, string, string) -> string)

  /** A call made to a collaborator during one `get_response`. `FetchSchema`
      is one `db.get_table_info()`. */
  datatype Call =
    | FetchSchema
    | GenerateSql(question: string, history: seq<Turn>, schema: string)
    | RunSql(query: string)
    | GenerateAnswer(question: string, history: seq<Turn>, schema: string, query: string, response: string)

  /** What `get_response` returns, and the collaborator calls it made on the way. */
  datatype Reply = Reply(text: string, calls: seq<Call>)

  /** A call to one of the two language-model chains. */
  predicate IsModelCall(call: Call) {
    call.GenerateSql? || call.GenerateAnswer?
  }

  /** The verdict of the gate: the text that may run, or a rejection. */
  datatype Verdict = Valid(query: string) | Rejected

  /** The fixed reply when the generated text is not accepted. */
  const Refusal: string :=
    "I'm sorry, I couldn't generate a valid answer based on your question. Could you please rephrase it or ask another question?"

  /** The statement kinds the gate lets through. */
  const Verbs: seq<string> := ["SELECT", "INSERT", "UPDATE", "DELETE"]

  /** The condition of `get_response`: the stripped text starts with one of the
      four verbs, literally and case-sensitively. */
  predicate IsValidSql(generated: string) {
    var t := Strip(generated);
    StartsWith(t, "SELECT") || StartsWith(t, "INSERT") || StartsWith(t, "UPDATE") || StartsWith(t, "DELETE")
  }

  /** The allow-list reading of the test: `t` starts with some verb of `Verbs`. */
  predicate StartsWithVerb(t: string) {
    exists verb :: verb in Verbs && StartsWith(t, verb)
  }

  /** The four `startswith` calls are the allow-list `Verbs`, nothing more or less. */
  lemma FourTestsAreTheAllowList(t: string)
    ensures StartsWithVerb(t) <==>
            StartsWith(t, "SELECT") || StartsWith(t, "INSERT") || StartsWith(t, "UPDATE") || StartsWith(t, "DELETE")
  {
    assert Verbs[0] == "SELECT" && Verbs[1] == "INSERT" && Verbs[2] == "UPDATE" && Verbs[3] == "DELETE";
  }

  /** The gate. An accepted text is passed on exactly as generated, surrounding
      whitespace included; stripping is only used for the test. */
  function Validate(generated: string): (v: Verdict)
    ensures v.Valid? <==> StartsWithVerb(Strip(generated))
    ensures v.Valid? ==> v.query == generated
  {
    FourTestsAreTheAllowList(Strip(generated));
    if IsValidSql(generated) then Valid(generated) else Rejected
  }

  /** Every verb is a non-empty run of non-space characters. */
  lemma VerbsHaveNoSpace(verb: string)
    requires verb in Verbs
    ensures verb != [] && forall i :: 0 <= i < |verb| ==> !IsSpace(verb[i])
  {
  }

  /** Only leading whitespace matters to the gate: it accepts exactly when the
      text, with its leading whitespace removed, starts with a verb. */
  lemma GateLooksAtLeadingWhitespaceOnly(generated: string)
    ensures Validate(generated).Valid? <==> StartsWithVerb(TrimLeft(generated))
  {
    forall verb | verb in Verbs
      ensures StartsWith(Strip(generated), verb) <==> StartsWith(TrimLeft(generated), verb)
    {
      VerbsHaveNoSpace(verb);
      StripStartsWith(generated, verb);
    }
  }

  /** The match is a raw prefix: any whitespace, a verb, then anything at all
      (`SELECTED`, a second statement, trailing prose) is accepted, unchanged. */
  lemma GateAcceptsRawPrefix(ws: string, verb: string, rest: string)
    requires AllSpace(ws)
    requires verb in Verbs
    ensures Validate(ws + verb + rest) == Valid(ws + verb + rest)
  {
    VerbsHaveNoSpace(verb);
    assert ws + verb + rest == ws + (verb + rest);
    TrimLeftSkips(ws, verb + rest);
    assert (verb + rest)[..|verb|] == verb;
    GateLooksAtLeadingWhitespaceOnly(ws + verb + rest);
  }

  /** The gate refuses text whose first non-space character starts no verb:
      lower-case `select`, `DROP`, `WITH`, prose. */
  lemma GateRejectsWithoutVerb(generated: string)
    requires forall verb :: verb in Verbs ==> !StartsWith(TrimLeft(generated), verb)
    ensures Validate(generated) == Rejected
  {
    GateLooksAtLeadingWhitespaceOnly(generated);
  }

  /** What the SQL chain writes for a question, given the history and the
      schema of the connected database. */
  function Generated<H>(question: string, db: H, history: seq<Turn>, c: Collaborators<H>): string {
    c.writeSql(question, history, c.schema(db))
  }

  /** The SQL text and the collaborator calls of one `get_response`. The SQL
      chain first fetches the schema and then calls the SQL model. When the
      gate accepts, the answer chain fetches the schema again and runs the
      unstripped generated text, then the answer model receives the database's
      response; when it refuses, the reply is the refusal and nothing else is
      called. The answer chain evaluates the second fetch and `db.run` in one
      `assign`, so the program does not fix their relative order; the trace
      lists the fetch first. */
  function GetResponse<H>(question: string, db: H, history: seq<Turn>, c: Collaborators<H>): (r: Reply)
    ensures |r.calls| >= 2 && r.calls[0] == FetchSchema && r.calls[1] == GenerateSql(question, history, c.schema(db))
    ensures var generated := Generated(question, db, history, c);
            Validate(generated).Rejected? ==> r.text == Refusal && |r.calls| == 2
    ensures var generated := Generated(question, db, history, c);
            Validate(generated).Valid? ==>
              && r.calls[2..] == [FetchSchema, RunSql(generated),
                                  GenerateAnswer(question, history, c.schema(db), generated, c.run(db, generated))]
              && r.text == c.writeAnswer(question, history, c.schema(db), generated, c.run(db, generated))
    ensures forall k :: 0 <= k < |r.calls| && IsModelCall(r.calls[k]) ==>
              r.calls[k].question == question && r.calls[k].history == history
  {
    var generated := Generated(question, db, history, c);
    var asked := [FetchSchema, GenerateSql(question, history, c.schema(db))];
    match Validate(generated)
    case Rejected => Reply(Refusal, asked)
    case Valid(query) =>
      var response := c.run(db, query);
      var answer := c.writeAnswer(question, history, c.schema(db), query, response);
      Reply(answer, asked + [FetchSchema, RunSql(query), GenerateAnswer(question, history, c.schema(db), query, response)])
  }

  /** The queries sent to the database, in order. */
  function Executed(calls: seq<Call>): (qs: seq<string>)
    ensures forall q :: q in qs <==> RunSql(q) in calls
  {
    if calls == [] then []
    else if calls[0].RunSql? then [calls[0].query] + Executed(calls[1..])
    else Executed(calls[1..])
  }

  /** The queries run by two traces put together are those of each. */
  lemma {:induction false} ExecutedAppend(a: seq<Call>, b: seq<Call>)
    ensures Executed(a + b) == Executed(a) + Executed(b)
    decreases |a|
  {
    if a != [] {
      assert (a + b)[0] == a[0];
      assert (a + b)[1..] == a[1..] + b;
      ExecutedAppend(a[1..], b);
      var head := if a[0].RunSql? then [a[0].query] else [];
      assert Executed(a) == head + Executed(a[1..]);
      assert Executed(a + b) == head + Executed(a[1..] + b);
      assert head + Executed(a[1..]) + Executed(b) == head + (Executed(a[1..]) + Executed(b));
    } else {
      assert a + b == b;
    }
  }

  /** A leading call other than a run adds nothing to the queries run. */
  lemma ExecutedSkipsModelCall(calls: seq<Call>)
    requires calls != [] && !calls[0].RunSql?
    ensures Executed(calls) == Executed(calls[1..])
  {
  }

  /** The SQL chain's two calls run nothing. */
  lemma ExecutedOfPrelude(a: Call, b: Call)
    requires !a.RunSql? && !b.RunSql?
    ensures Executed([a, b]) == []
  {
    assert [a, b][1..] == [b] && [b][1..] == [];
    assert Executed([b]) == Executed([]) == [];
  }

  /** The answer chain's calls run exactly its query. */
  lemma ExecutedOfAnswerChain(query: string, answer: Call)
    requires !answer.RunSql?
    ensures Executed([FetchSchema, RunSql(query), answer]) == [query]
  {
    var tail := [FetchSchema, RunSql(query), answer];
    assert tail[1..] == [RunSql(query), answer] && tail[1..][1..] == [answer] && [answer][1..] == [];
    assert Executed([answer]) == Executed([]) == [];
    assert Executed(tail[1..]) == [query] + Executed([answer]);
  }

  /** `db.run` is called at most once per question, and only on something the
      gate accepted: the generated text itself. */
  lemma OnlyAcceptedSqlRuns<H>(question: string, db: H, history: seq<Turn>, c: Collaborators<H>)
    ensures var generated := Generated(question, db, history, c);
            Executed(GetResponse(question, db, history, c).calls) ==
              (if Validate(generated).Valid? then [generated] else [])
  {
    var generated := Generated(question, db, history, c);
    var cs := GetResponse(question, db, history, c).calls;
    var prelude := cs[..2];
    assert prelude == [cs[0], cs[1]];
    ExecutedOfPrelude(cs[0], cs[1]);
    if Validate(generated).Valid? {
      assert cs == prelude + cs[2..];
      ExecutedAppend(prelude, cs[2..]);
      ExecutedOfAnswerChain(generated, cs[4]);
    } else {
      assert cs == prelude;
    }
  }

  /** A refused question fetches the schema and calls the SQL model, and makes
      no database run and no answer-model call. */
  lemma RefusalRunsNothing<H>(question: string, db: H, history: seq<Turn>, c: Collaborators<H>)
    requires Validate(Generated(question, db, history, c)).Rejected?
    ensures GetResponse(question, db, history, c).text == Refusal
    ensures forall call :: call in GetResponse(question, db, history, c).calls ==>
              !call.RunSql? && !call.GenerateAnswer?
  {
  }

  /** `DROP`, whatever surrounds it, is refused: the first letter rules out
      three verbs and the second rules out `DELETE`. */
  lemma DropIsRefused(ws: string, rest: string)
    requires AllSpace(ws)
    ensures Validate(ws + "DROP" + rest) == Rejected
  {
    var t := "DROP" + rest;
    assert ws + "DROP" + rest == ws + t;
    assert t[0] == 'D' && t[1] == 'R';
    TrimLeftSkips(ws, t);
    NotStartsWithAt(t, "SELECT", 0);
    NotStartsWithAt(t, "INSERT", 0);
    NotStartsWithAt(t, "UPDATE", 0);
    NotStartsWithAt(t, "DELETE", 1);
    GateRejectsWithoutVerb(ws + t);
  }

  /** The test is case-sensitive: text whose first non-space character is a
      lower-case letter, such as `select ...`, is refused. */
  lemma LowerCaseIsRefused(ws: string, t: string)
    requires AllSpace(ws)
    requires t != [] && 'a' <= t[0] <= 'z'
    ensures Validate(ws + t) == Rejected
  {
    TrimLeftSkips(ws, t);
    NotStartsWithAt(t, "SELECT", 0);
    NotStartsWithAt(t, "INSERT", 0);
    NotStartsWithAt(t, "UPDATE", 0);
    NotStartsWithAt(t, "DELETE", 0);
    GateRejectsWithoutVerb(ws + t);
  }

  /** The scenario of "Name 10 artists": surrounding whitespace does not stop
      the statement, and it reaches the database with that whitespace. */
  lemma PaddedSelectIsAccepted()
    ensures var g := "\n  " + "SELECT" + " Name FROM Artist LIMIT 10;\n";
            Validate(g) == Valid(g)
  {
    assert AllSpace("\n  ") by {
      assert forall i :: 0 <= i < 3 ==> "\n  "[i] == '\n' || "\n  "[i] == ' ';
    }
    GateAcceptsRawPrefix("\n  ", "SELECT", " Name FROM Artist LIMIT 10;\n");
  }
}
