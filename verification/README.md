# DataWhisperer: a verified model of the chat-with-MySQL core

DataWhisperer is a single Streamlit script (`src/app.py`). A user types a question. A language model turns it into SQL, and the SQL runs against a MySQL database. A second model call phrases the result as an answer. Almost all of the script is UI and library glue. This project models the small amount of decision logic inside it:

- **Connection setup** (`init_database`). The MySQL connection URI is built by plain concatenation. The driver is called once. A failure is sorted into one of three reported outcomes:
  - the database does not exist (MySQL errno 1049);
  - a generic connect failure;
  - an unexpected error.

  Every failure yields no handle.
- **The SQL gate and pipeline branching** (`get_response`). The generated text is stripped only for the test. It is accepted only if it starts, case-sensitively, with `SELECT`, `INSERT`, `UPDATE` or `DELETE`. Accepted text is run unstripped, and the database's response goes to the answer model. Rejected text yields a fixed refusal, and nothing runs.
- **Session state** (module level). The transcript is set to one greeting only if no transcript exists yet. The Connect button stores a handle only when one was returned. A blank chat input is ignored. A non-blank one appends a Human turn, calls `get_response` with the history that now ends with that turn, and appends the AI reply.

The language models and the database are function parameters. They are gathered in `Pipeline.Collaborators`: `schema`, `run`, `writeSql` and `writeAnswer`. The driver's `SQLDatabase.from_uri` is a parameter `connect: string -> Attempt<H>` that returns a handle of an arbitrary type `H` or a tagged exception. `get_response` returns a `Reply` that carries its text and also the list of collaborator calls it made: schema fetches, `db.run` calls and model calls. Properties such as "`db.run` was not called" are stated over that list. Each rerun of the script gets its own driver and collaborators (`Session.Step`). A database created after a failed Connect can therefore be connected to later, and the models and the data may answer differently from one rerun to the next.

Files, one module each:

- `wrappers.dfy`: `Option` and `Result`.
- `text.dfy`: Python's `strip`, `lstrip`, `rstrip` and `startswith` over a fixed whitespace set, and splitting at a separator.
- `connection.dfy`: credentials, the URI, reading a URI back, and `init_database`.
- `pipeline.dfy`: chat turns, the gate and `get_response`.
- `session.dfy`: the session record, the three script steps, one whole rerun of the script, and sequences of reruns.

Three points about the code that are easy to misread:

- The generated SQL is not trimmed before it runs. `StrOutputParser` returns the model text as is, and `strip()` is used only inside the test at `src/app.py:79`.
- Only a SQLAlchemy `ProgrammingError` becomes the generic "failed to connect" outcome. Any other exception raised while connecting is reported as unexpected. An operational error, such as an unreachable host, is one of these.
- The Human turn is appended before `get_response` runs. A question asked before any successful Connect makes the script crash when it reads `st.session_state.db` at `src/app.py:255`. That read comes after the append and before `get_response` is entered. A failure inside `get_response` has the same effect. Either way the Human turn stays recorded without an answer. The model makes no claim that the transcript stays free of partial turns.

## Model

| member | source | states |
|---|---|---|
| Connection.Uri | src/app.py:18 | The URI begins with the `mysql+mysqlconnector://` scheme. Its length is the scheme plus the five parts plus the four separators, so nothing is escaped, added or dropped. |
| Connection.ParseUri | src/app.py:18 | Whatever this reads out of a URI reassembles, through `Uri`, into exactly that URI. |
| Connection.ParseUriRoundTrip | src/app.py:18 | Reading back a built URI recovers all five fields. This holds when the user and host contain no `:`, the password no `@` and the port no `/`. |
| Connection.UriIsAmbiguous | src/app.py:18 | Without escaping, two different credential sets give the same URI. The example is a password containing `@` and `:`. |
| Connection.InitDatabase | src/app.py:17-29 | The driver is called with the built URI. A handle comes back exactly when the driver opened one. A missing-database outcome naming the database happens exactly for a ProgrammingError wrapping a MySQL ProgrammingError with errno 1049. Any other ProgrammingError is a generic connect failure. Every other exception is unexpected. |
| Connection.FailureHasNoHandle | src/app.py:22-29 | Whatever the driver raised, the caller receives `None`. |
| Connection.MissingDatabaseOnlyFor1049 | src/app.py:22-27 | For a MySQL ProgrammingError, the outcome is "database does not exist" exactly when errno is 1049, and a generic connect failure for every other errno. |
| Text.Strip | src/app.py:79 | The stripped text is empty exactly when the input is all whitespace. Otherwise it begins and ends with a non-whitespace character. |
| Text.StripIsInfix | src/app.py:79 | What `strip()` keeps is a contiguous piece of the input, at some offset, with only whitespace before and after it. |
| Text.StripIdempotent | src/app.py:79 | Stripping twice equals stripping once. |
| Text.StripStartsWith | src/app.py:79 | For a prefix of non-space characters, `strip().startswith(p)` holds exactly when `lstrip().startswith(p)` does. |
| Pipeline.FourTestsAreTheAllowList | src/app.py:79 | The four chained `startswith` tests accept exactly the texts that start with some verb of the allow-list `SELECT`, `INSERT`, `UPDATE`, `DELETE`. |
| Pipeline.Validate | src/app.py:79 | The gate accepts exactly when the stripped text starts with one of the four verbs. Accepted text is handed on unstripped. |
| Pipeline.GateLooksAtLeadingWhitespaceOnly | src/app.py:79 | Trailing whitespace never matters. The gate accepts exactly when the text, once its leading whitespace is removed, starts with a verb. |
| Pipeline.GateAcceptsRawPrefix | src/app.py:79 | Any whitespace, then a verb, then anything at all (for example `SELECTED`) is accepted unchanged. There is no word-boundary check. |
| Pipeline.GateRejectsWithoutVerb | src/app.py:79-111 | Text whose first non-space characters begin no verb is rejected. |
| Pipeline.DropIsRefused | src/app.py:79 | Any text whose first word is `DROP`, such as `DROP TABLE Artist;`, is rejected whatever whitespace precedes it. |
| Pipeline.LowerCaseIsRefused | src/app.py:79 | Text whose first non-space character is a lower-case letter, such as `select ...`, is rejected, because the match is case-sensitive. |
| Pipeline.PaddedSelectIsAccepted | src/app.py:79-98 | A `SELECT` surrounded by newlines and spaces is accepted, and it reaches the database with that whitespace still in place. |
| Pipeline.GetResponse | src/app.py:58-111 | The SQL chain fetches the schema and then calls the SQL model with the question, history and schema. On rejection the reply is the refusal and nothing else is called. On acceptance the answer chain fetches the schema again and runs the unstripped generated text. The answer model then receives that text and the database's response, and its output is the reply. Every model call sees the same question and history. The trace puts the second fetch before `db.run`; the program does not fix that order. |
| Pipeline.OnlyAcceptedSqlRuns | src/app.py:79-108 | `db.run` is called at most once per question. Its query is the generated text, and only when the gate accepted it. Schema fetches are not runs. |
| Pipeline.RefusalRunsNothing | src/app.py:109-111 | A refused question returns the fixed refusal. `db.run` is not called and the answer model is not called. |
| Session.Greet | src/app.py:143-146 | A missing history becomes exactly one AI greeting turn. An existing history and the connection are left untouched. |
| Session.GreetIdempotent | src/app.py:143-146 | A second greeting step changes nothing, so an existing transcript is never reset. |
| Session.PressConnect | src/app.py:164-175 | The connect outcome is `init_database`'s. A returned handle replaces the stored connection. A failure leaves the whole session state unchanged. The history is never touched. |
| Session.MissingDatabaseLeavesSession | src/app.py:164-174 | Connecting to a database the server does not know reports that database by name and leaves the session exactly as it was. |
| Session.AfterConnect | src/app.py:164-174 | The Connect step never touches the history and never drops an existing connection. |
| Session.Submit | src/app.py:249-261 | Blank input leaves the state unchanged, and the not-connected warning shows exactly when there is no connection. For non-blank input, the reply is `get_response` on the stored connection, with the history that now ends with the new Human turn. The step appends exactly a Human turn with the raw input and an AI turn with that reply's text. |
| Session.BlankMeansAllSpace | src/app.py:249 | An input is ignored exactly when it is absent or consists only of whitespace. |
| Session.RefusedQuestionRecordsRefusal | src/app.py:249-258 | When the generated text is refused, the recorded AI turn is the refusal and no query was run. |
| Session.ModelsSeeTheQuestionLast | src/app.py:249-255 | Every model call made for a question receives a history whose last turn is that question's Human turn. |
| Session.Rerun | src/app.py:143-261 | One pass of the script runs greeting, Connect and chat input in that order. The history then exists, and a connection once held stays held. A successful Connect stores its handle, and a failed one keeps the old connection. A blank input leaves the history as the greeting step left it. A non-blank input is answered by `get_response` on the connection left after the Connect step, with the greeted history plus its Human turn. It appends exactly its Human/AI pair. The warning shows exactly when the input is blank and no connection is held after the Connect step. |
| Session.AppendPairWellFormed | src/app.py:250-258 | Appending a non-blank question and its answer keeps a history in the shape "greeting, then Human/AI pairs". |
| Session.RerunPreservesInvariant | src/app.py:143-258 | Every rerun that runs to completion keeps the history in that shape. The old history is always a prefix of the new one. |
| Pipeline.ExecutedAppend | src/app.py:96-99 | The queries run by two traces put together are those of each, in order. |
| Pipeline.Executed | src/app.py:96-108 | The queries sent to the database are exactly the queries of the run calls in a trace. |
| Session.Questions | src/app.py:250 | The questions of a history are exactly the contents of its Human turns. |
| Session.AskedAppend | src/app.py:249-250 | The non-blank inputs of two rerun sequences, put together, are those of each in order. |
| Session.RunAllAppendsPairs | src/app.py:249-258 | Over any sequence of reruns on a connected session, each rerun with its own driver and collaborators, the old history stays a prefix. The history grows by exactly two turns per non-blank input. |
| Session.RunAllRecordsEveryQuestion | src/app.py:249-258 | Over any sequence of reruns on a connected session, each rerun with its own driver and collaborators, the Human turns added carry exactly the non-blank inputs, in the order they were submitted. |
| Session.ConnectionPersists | src/app.py:173-174 | Over any sequence of reruns in which every Connect press fails, the stored connection is never replaced or lost. Each rerun may have its own driver. |

## Left out

- Streamlit rendering is not modelled: page setup, sidebar widgets, spinner, chat bubbles and the help HTML (`src/app.py:150-247`). The model records which outcome is reported, not how it is displayed.
- The prompt templates, the OpenAI and Groq clients and the output parser (`src/app.py:31-67`, `81-103`) are abstracted. They become the `writeSql` and `writeAnswer` parameters. They are remote, nondeterministic calls, and the prompt wording has no effect on the logic.
- `SQLDatabase.from_uri`, `get_table_info` and `db.run` are abstracted as the `connect`, `schema` and `run` parameters. `schema` is a function of the handle. The model therefore does not represent a schema that changes between the two fetches inside one question.
- The old pipeline inside the triple-quoted string (`src/app.py:112-142`) is not modelled. It is a string literal and never runs.
- `load_dotenv` and environment configuration are not modelled. They are I/O.
- Failures of `db.run` or of a model call are not modelled. The script does not handle them and they propagate. Nothing is claimed about the transcript in that case.
- Session.Submit: requires a connection for non-blank input. The script reads `st.session_state.db` unguarded and would crash without one. No recovery is invented.
- Session.RerunPreservesInvariant: covers only reruns that run to completion. A rerun the script aborts leaves an unanswered Human turn, and then the history is no longer greeting-then-pairs. This happens with a non-blank question before any successful Connect, or with a failing `db.run` or model call. The model has no aborted state.
- Session.RunAllAppendsPairs: stated only for sessions that already hold a connection and a history. `RunAll` requires a held connection so that every rerun is `Ready`. A session that connects during the sequence is not covered, although it would answer every later input too.
- Session.RunAllRecordsEveryQuestion: same restriction as RunAllAppendsPairs.
- Text.Strip: whitespace is a fixed set of characters, the ones Python's `str.isspace()` accepts. Unicode database versions are not modelled.
- Connection.InitDatabase: a driver error whose `errno` is `None` is treated like any errno other than 1049. The script handles both the same way.
- The "Connected to Database" success message and the `st.error` texts are display only. The model keeps the outcome they report as `Result<H, ConnectError>`.
