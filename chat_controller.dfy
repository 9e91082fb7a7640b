/** The chat assistant's back end: the guard in front of the database for model-written SQL,
    and the dispatch on the classifier's route. The language-model calls and the database are
    outside the model; what they return is passed in. */
module ChatController {
  import opened Wrappers
  import opened Seqs

  /** JavaScript's WhiteSpace and LineTerminator characters, the ones `trim` removes. */
  predicate IsJsWhitespace(c: char)
  {
    c as int in {0x09, 0x0A, 0x0B, 0x0C, 0x0D, 0x20, 0xA0, 0x1680, 0x2028, 0x2029, 0x202F, 0x205F, 0x3000, 0xFEFF}
    || 0x2000 <= c as int <= 0x200A
  }

  /** Drops the leading whitespace: the result is the suffix of `s` that starts at its first
      non-whitespace character. */
  function TrimStart(s: string): (r: string)
    ensures |r| <= |s| && r == s[|s| - |r|..]
    ensures forall i :: 0 <= i < |s| - |r| ==> IsJsWhitespace(s[i])
    ensures r == [] || !IsJsWhitespace(r[0])
  {
    if s != [] && IsJsWhitespace(s[0]) then TrimStart(s[1..]) else s
  }

  /** Drops the trailing whitespace: the result is the prefix of `s` that ends at its last
      non-whitespace character. */
  function TrimEnd(s: string): (r: string)
    ensures |r| <= |s| && r == s[..|r|]
    ensures forall i :: |r| <= i < |s| ==> IsJsWhitespace(s[i])
    ensures r == [] || !IsJsWhitespace(r[|r| - 1])
  {
    if s != [] && IsJsWhitespace(s[|s| - 1]) then TrimEnd(s[..|s| - 1]) else s
  }

  /** `String.prototype.trim`. */
  function Trim(s: string): string
  {
    TrimEnd(TrimStart(s))
  }

  /** Trimming a string without whitespace at either end leaves it as it is. */
  lemma TrimUntouched(s: string)
    requires s != [] && !IsJsWhitespace(s[0]) && !IsJsWhitespace(s[|s| - 1])
    ensures Trim(s) == s
  {
  }

  function UpperChar(c: char): char
  {
    if 'a' <= c <= 'z' then (c as int - 32) as char else c
  }

  /** `toUpperCase` on the ASCII letters. */
  function ToUpper(s: string): string
  {
    seq(|s|, i requires 0 <= i < |s| => UpperChar(s[i]))
  }

  /** Upper-casing leaves text without a lower-case ASCII letter as it is. */
  lemma {:induction false} ToUpperUntouched(s: string)
    requires forall c :: c in s ==> !('a' <= c <= 'z')
    ensures ToUpper(s) == s
  {
    forall i | 0 <= i < |s|
      ensures ToUpper(s)[i] == s[i]
    {
      assert s[i] in s;
    }
  }

  /** The text the guard inspects: `query.trim().toUpperCase()`. */
  function Sanitize(query: string): string
  {
    ToUpper(Trim(query))
  }

  predicate StartsWith(s: string, prefix: string)
  {
    |prefix| <= |s| && s[..|prefix|] == prefix
  }

  predicate OccursAt(s: string, sub: string, p: nat)
  {
    p + |sub| <= |s| && s[p..p + |sub|] == sub
  }

  /** `s.includes(sub)`. */
  predicate Contains(s: string, sub: string)
  {
    exists p: nat :: p <= |s| && OccursAt(s, sub, p)
  }

  /** The characters of `\b` in a regular expression without the `u` flag. */
  predicate IsWordChar(c: char)
  {
    'A' <= c <= 'Z' || 'a' <= c <= 'z' || '0' <= c <= '9' || c == '_'
  }

  /** An occurrence of `k` at `p` with a word boundary on both sides, as `\bK\b(?!_)` matches it;
      the look-ahead adds nothing, since `_` is a word character. */
  predicate StandaloneAt(s: string, k: string, p: nat)
  {
    && OccursAt(s, k, p)
    && (p == 0 || !IsWordChar(s[p - 1]))
    && (p + |k| == |s| || !IsWordChar(s[p + |k|]))
  }

  /** `new RegExp('\\b' + k + '\\b(?!_)', 'i').test(s)` on upper-cased `s` and an upper-case `k`. */
  predicate HasStandalone(s: string, k: string)
  {
    exists p: nat :: p <= |s| && StandaloneAt(s, k, p)
  }

  const DangerousKeywords: seq<string> := ["DROP", "DELETE", "UPDATE", "INSERT", "ALTER", "TRUNCATE", "CREATE"]

  /** The test of the keyword loop: a standalone occurrence, unless `K_` or `_K` appears anywhere. */
  predicate Blocks(s: string, k: string)
  {
    HasStandalone(s, k) && !Contains(s, k + "_") && !Contains(s, "_" + k)
  }

  /** The loop over the keywords from position `from` on, stopping at the first that blocks. */
  function FirstBlocked(s: string, from: nat): (r: Option<nat>)
    requires from <= |DangerousKeywords|
    ensures r.Some? ==> from <= r.value < |DangerousKeywords| && Blocks(s, DangerousKeywords[r.value])
    ensures r.Some? ==> forall j :: from <= j < r.value ==> !Blocks(s, DangerousKeywords[j])
    ensures r.None? ==> forall j :: from <= j < |DangerousKeywords| ==> !Blocks(s, DangerousKeywords[j])
    decreases |DangerousKeywords| - from
  {
    if from == |DangerousKeywords| then None
    else if Blocks(s, DangerousKeywords[from]) then Some(from)
    else FirstBlocked(s, from + 1)
  }

  /** The checks of `executeSqlQuery` before the database: the error it returns, or `None` when
      the query may run. A query passes exactly when its sanitized text starts with SELECT and
      no keyword blocks; the error names the first blocking keyword in list order. */
  function SqlGuard(query: string): (r: Option<string>)
    ensures r == Some("Only SELECT queries are allowed") <== !StartsWith(Sanitize(query), "SELECT")
    ensures r.None? <==>
      StartsWith(Sanitize(query), "SELECT") &&
      forall j :: 0 <= j < |DangerousKeywords| ==> !Blocks(Sanitize(query), DangerousKeywords[j])
    ensures StartsWith(Sanitize(query), "SELECT") && r.Some? ==>
      exists i :: 0 <= i < |DangerousKeywords| && r.value == DangerousKeywords[i] + " operations are not allowed"
                  && Blocks(Sanitize(query), DangerousKeywords[i])
                  && forall j :: 0 <= j < i ==> !Blocks(Sanitize(query), DangerousKeywords[j])
  {
    var s := Sanitize(query);
    if !StartsWith(s, "SELECT") then Some("Only SELECT queries are allowed")
    else
      match FirstBlocked(s, 0)
      case Some(i) => Some(DangerousKeywords[i] + " operations are not allowed")
      case None => None
  }

  /** The guard names the first blocking keyword in list order. */
  lemma GuardNamesFirstKeyword(query: string, i: nat)
    requires i < |DangerousKeywords|
    requires StartsWith(Sanitize(query), "SELECT")
    requires Blocks(Sanitize(query), DangerousKeywords[i])
    requires forall j :: 0 <= j < i ==> !Blocks(Sanitize(query), DangerousKeywords[j])
    ensures SqlGuard(query) == Some(DangerousKeywords[i] + " operations are not allowed")
  {
    var r := FirstBlocked(Sanitize(query), 0);
    assert r == Some(i);
  }

  /** A keyword with a character the text lacks neither blocks nor occurs in it. */
  lemma MissingCharacter(s: string, k: string, c: char)
    requires c in k && c !in s
    ensures !HasStandalone(s, k) && !Blocks(s, k)
  {
    var i :| 0 <= i < |k| && k[i] == c;
    forall p: nat | p <= |s| ensures !OccursAt(s, k, p) {
      if p + |k| <= |s| {
        assert s[p..p + |k|][i] == s[p + i];
        assert s[p + i] in s;
      }
    }
  }

  /** The rows the database returns for the query, or the error it throws. */
  datatype DbOutcome = DbRows(rows: seq<string>) | DbError(message: string)

  datatype SqlResult = SqlOk(data: seq<string>) | SqlFailed(error: string)

  /** The result of `executeSqlQuery`, and whether the query reached the database. */
  datatype SqlRun = SqlRun(result: SqlResult, reachedDb: bool)

  /** `executeSqlQuery` with the keyword check as intended (`StrictSqlGuard`; the check as
      written is `SqlGuard`): the database is reached exactly when the guard passes; the
      guard's error otherwise; a database error becomes a failure carrying its message. */
  function ExecuteSqlQuery(query: string, db: DbOutcome): (r: SqlRun)
    ensures r.reachedDb <==> StrictSqlGuard(query).None?
    ensures !r.reachedDb ==> r.result == SqlFailed(StrictSqlGuard(query).value)
    ensures r.reachedDb && db.DbRows? ==> r.result == SqlOk(db.rows)
    ensures r.reachedDb && db.DbError? ==> r.result == SqlFailed(db.message)
  {
    match StrictSqlGuard(query)
    case Some(error) => SqlRun(SqlFailed(error), false)
    case None =>
      match db
      case DbRows(rows) => SqlRun(SqlOk(rows), true)
      case DbError(message) => SqlRun(SqlFailed(message), true)
  }

  /** `executeSqlQuery` exactly as written, with the keyword check `SqlGuard` and its escape
      clause: the database is reached exactly when that guard passes. */
  function ExecuteSqlQueryAsWritten(query: string, db: DbOutcome): (r: SqlRun)
    ensures r.reachedDb <==> SqlGuard(query).None?
    ensures !r.reachedDb ==> r.result == SqlFailed(SqlGuard(query).value)
    ensures r.reachedDb && db.DbRows? ==> r.result == SqlOk(db.rows)
    ensures r.reachedDb && db.DbError? ==> r.result == SqlFailed(db.message)
  {
    match SqlGuard(query)
    case Some(error) => SqlRun(SqlFailed(error), false)
    case None =>
      match db
      case DbRows(rows) => SqlRun(SqlOk(rows), true)
      case DbError(message) => SqlRun(SqlFailed(message), true)
  }

  /** When each occurrence of `k`'s first character, all of them listed in `at`, is followed by a
      character other than `k`'s second, or begins a run of `k` that a word character extends,
      `k` has no standalone occurrence. */
  lemma OnlyEmbedded(s: string, k: string, first: char, second: char, at: set<nat>)
    requires |k| >= 2 && k[0] == first && k[1] == second
    requires forall p :: 0 <= p < |s| && s[p] == first ==> p in at
    requires forall p :: p in at ==>
      p + 1 < |s| && (s[p + 1] != second || (p + |k| < |s| && IsWordChar(s[p + |k|])))
    ensures !HasStandalone(s, k) && !Blocks(s, k)
  {
    forall p: nat | p <= |s| ensures !StandaloneAt(s, k, p) {
      if p + |k| <= |s| {
        assert s[p..p + |k|][0] == s[p];
        assert s[p..p + |k|][1] == s[p + 1];
      }
    }
  }

  /** One entry of `conversationHistory`. */
  datatype ChatMessage = ChatMessage(role: string, content: string)

  /** The messages after the system prompt in the classification request: the last five of the
      history and the user's message. */
  function ClassifierMessages(history: seq<ChatMessage>, message: string): (r: seq<ChatMessage>)
    ensures |r| == (if |history| < 5 then |history| else 5) + 1
    ensures r[|r| - 1] == ChatMessage("user", message)
    ensures r[..|r| - 1] == history[|history| - (|r| - 1)..]
  {
    Last(history, 5) + [ChatMessage("user", message)]
  }

  /** The classifier's JSON: `route` is `None` when it is missing or not a number. */
  datatype Classification = Classification(route: Option<int>, data: string, responseType: string, language: string)

  datatype Chart = Chart(html: string, title: string)

  datatype ChatResponse =
    | TextResponse(route: int, content: string)
    | QueryAnswer(content: string, sqlQuery: string, rawData: seq<string>)
    | ChartResponse(html: string, title: string, sqlQuery: string, rawData: seq<string>)

  /** A response, the SQL that reached the database and the language named in the answer prompt. */
  datatype ChatOutcome = ChatOutcome(reply: Reply<ChatResponse>, executedSql: Option<string>, promptLanguage: Option<string>)

  const OffTopicText: string :=
    "I'm sorry, but I can only help with questions related to your Smart Farm - plants, fields, irrigation, and farm management. Please ask me something about your farm!"
  const RephraseText: string := "I couldn't formulate a proper query for your request. Could you please rephrase your question?"
  const RetrievalIssuePrefix: string := "I encountered an issue retrieving that information. "
  const FallbackText: string :=
    "I'm not sure how to help with that. Please try asking about your plants, fields, irrigation schedule, or farm statistics."

  /** `routeResult.language || 'en'`, then the name put in the answer prompt. */
  function LanguageName(language: string): (r: string)
    ensures language == "az" ==> r == "Azerbaijani"
    ensures language == "en" || language == "" ==> r == "English"
    ensures language !in {"az", "en", ""} ==> r == language
  {
    var detected := if language == "" then "en" else language;
    if detected == "az" then "Azerbaijani" else if detected == "en" then "English" else detected
  }

  /** The request got as far as routing: a message, a key and the classifier's answer. */
  predicate Classified(message: Option<string>, apiKeyConfigured: bool, classification: Option<Classification>)
  {
    message.Some? && message.value != "" && apiKeyConfigured && classification.Some?
  }

  /** The classifier gave SQL that the guard passes and the database answers with rows. */
  predicate QueryRuns(c: Classification, db: DbOutcome)
  {
    c.data != "" && c.responseType == "sql" && StrictSqlGuard(c.data).None? && db.DbRows?
  }

  /** `chatWithAI`. `message` is `None` when absent or not a string; `classification`,
      `answer` and `chart` are what the three model calls return, `None` when the call or
      the parsing of its JSON throws; `db` is what the database returns for the classifier's
      SQL, used only if the guard lets it through. */
  function ChatWithAI(message: Option<string>, apiKeyConfigured: bool, classification: Option<Classification>,
                      db: DbOutcome, answer: Option<string>, chart: Option<Chart>): (r: ChatOutcome)
    ensures message.None? || message.value == "" ==> r.reply == Fail(400, "Message is required")
    ensures message.Some? && message.value != "" && !apiKeyConfigured ==>
      r.reply == Fail(500, "OpenAI API key not configured")
    ensures message.Some? && message.value != "" && apiKeyConfigured && classification.None? ==>
      r.reply == Fail(500, "Failed to process your request")
    ensures r.reply.Fail? ==> r.reply.code in {400, 500}
    ensures Classified(message, apiKeyConfigured, classification) && classification.value.route == Some(0) ==>
      && r.reply == Ok(TextResponse(0, if classification.value.data != "" then classification.value.data else OffTopicText))
      && r.executedSql.None?
    ensures Classified(message, apiKeyConfigured, classification) && classification.value.route in {Some(1), Some(2)} &&
            (classification.value.data == "" || classification.value.responseType != "sql") ==>
      r.reply == Ok(TextResponse(classification.value.route.value, RephraseText)) && r.executedSql.None?
    ensures Classified(message, apiKeyConfigured, classification) && classification.value.route in {Some(1), Some(2)} &&
            classification.value.data != "" && classification.value.responseType == "sql" ==>
      (r.executedSql == Some(classification.value.data) <==> StrictSqlGuard(classification.value.data).None?)
    ensures Classified(message, apiKeyConfigured, classification) && classification.value.route == Some(1) &&
            QueryRuns(classification.value, db) ==>
      && r.reply == (if answer.Some? then Ok(QueryAnswer(answer.value, classification.value.data, db.rows))
                     else Fail(500, "Failed to process your request"))
      && r.promptLanguage == Some(LanguageName(classification.value.language))
    ensures Classified(message, apiKeyConfigured, classification) && classification.value.route == Some(2) &&
            QueryRuns(classification.value, db) ==>
      r.reply == (if chart.Some? then Ok(ChartResponse(chart.value.html, chart.value.title, classification.value.data, db.rows))
                  else Fail(500, "Failed to process your request"))
    ensures r.executedSql.Some? ==>
      && classification.Some? && classification.value.route in {Some(1), Some(2)}
      && r.executedSql.value == classification.value.data != ""
      && classification.value.responseType == "sql"
      && StrictSqlGuard(r.executedSql.value).None?
    ensures r.reply.Ok? && r.reply.value.QueryAnswer? ==>
      && classification.value.route == Some(1)
      && r.executedSql == Some(r.reply.value.sqlQuery)
      && db == DbRows(r.reply.value.rawData)
      && answer == Some(r.reply.value.content)
      && r.promptLanguage == Some(LanguageName(classification.value.language))
    ensures r.reply.Ok? && r.reply.value.ChartResponse? ==>
      && classification.value.route == Some(2)
      && r.executedSql == Some(r.reply.value.sqlQuery)
      && db == DbRows(r.reply.value.rawData)
      && chart == Some(Chart(r.reply.value.html, r.reply.value.title))
    ensures Classified(message, apiKeyConfigured, classification) && classification.value.route !in {Some(0), Some(1), Some(2)} ==>
      r.reply == Ok(TextResponse(0, FallbackText)) && r.executedSql.None?
  {
    if message.None? || message.value == "" then ChatOutcome(Fail(400, "Message is required"), None, None)
    else if !apiKeyConfigured then ChatOutcome(Fail(500, "OpenAI API key not configured"), None, None)
    else if classification.None? then ChatOutcome(Fail(500, "Failed to process your request"), None, None)
    else
      var c := classification.value;
      if c.route == Some(0) then
        ChatOutcome(Ok(TextResponse(0, if c.data != "" then c.data else OffTopicText)), None, None)
      else if c.route == Some(1) || c.route == Some(2) then
        if c.data == "" || c.responseType != "sql" then
          ChatOutcome(Ok(TextResponse(c.route.value, RephraseText)), None, None)
        else
          var run := ExecuteSqlQuery(c.data, db);
          var executed := if run.reachedDb then Some(c.data) else None;
          match run.result
          case SqlFailed(error) =>
            ChatOutcome(Ok(TextResponse(c.route.value, RetrievalIssuePrefix + error)), executed, None)
          case SqlOk(rows) =>
            if c.route == Some(1) then
              var language := Some(LanguageName(c.language));
              match answer
              case Some(text) => ChatOutcome(Ok(QueryAnswer(text, c.data, rows)), executed, language)
              case None => ChatOutcome(Fail(500, "Failed to process your request"), executed, language)
            else
              match chart
              case Some(ch) => ChatOutcome(Ok(ChartResponse(ch.html, ch.title, c.data, rows)), executed, None)
              case None => ChatOutcome(Fail(500, "Failed to process your request"), executed, None)
      else ChatOutcome(Ok(TextResponse(0, FallbackText)), None, None)
  }

  /** A refused or failed query is answered with text that carries the error, on the same route. */
  lemma FailedQueryReported(message: string, c: Classification, db: DbOutcome, answer: Option<string>, chart: Option<Chart>)
    requires message != "" && c.route in {Some(1), Some(2)} && c.data != "" && c.responseType == "sql"
    requires ExecuteSqlQuery(c.data, db).result.SqlFailed?
    ensures ChatWithAI(Some(message), true, Some(c), db, answer, chart).reply
         == Ok(TextResponse(c.route.value, RetrievalIssuePrefix + ExecuteSqlQuery(c.data, db).result.error))
  {
  }

  /** The guard as intended: any standalone dangerous keyword stops the query, whatever else
      the query contains. */
  function StrictSqlGuard(query: string): (r: Option<string>)
    ensures r == Some("Only SELECT queries are allowed") <== !StartsWith(Sanitize(query), "SELECT")
    ensures r.None? <==>
      StartsWith(Sanitize(query), "SELECT") &&
      forall j :: 0 <= j < |DangerousKeywords| ==> !HasStandalone(Sanitize(query), DangerousKeywords[j])
    ensures StartsWith(Sanitize(query), "SELECT") && r.Some? ==>
      exists i :: 0 <= i < |DangerousKeywords| && r.value == DangerousKeywords[i] + " operations are not allowed"
                  && HasStandalone(Sanitize(query), DangerousKeywords[i])
  {
    var s := Sanitize(query);
    if !StartsWith(s, "SELECT") then Some("Only SELECT queries are allowed")
    else
      match FirstStandalone(s, 0)
      case Some(i) => Some(DangerousKeywords[i] + " operations are not allowed")
      case None => None
  }

  /** The intended guard only narrows what passes: a query it lets through passes the guard
      as written, and both refuse a query that is not a SELECT with the same error. */
  lemma StrictGuardNarrower(query: string)
    ensures StrictSqlGuard(query).None? ==> SqlGuard(query).None?
    ensures SqlGuard(query).Some? ==> StrictSqlGuard(query).Some?
    ensures !StartsWith(Sanitize(query), "SELECT") ==> StrictSqlGuard(query) == SqlGuard(query)
  {
  }

  /** Whatever the intended run sends to the database, the run as written sends too, with
      the same result. */
  lemma StrictRunAgrees(query: string, db: DbOutcome)
    ensures ExecuteSqlQuery(query, db).reachedDb ==> ExecuteSqlQueryAsWritten(query, db) == ExecuteSqlQuery(query, db)
  {
    StrictGuardNarrower(query);
  }

  function FirstStandalone(s: string, from: nat): (r: Option<nat>)
    requires from <= |DangerousKeywords|
    ensures r.Some? ==> from <= r.value < |DangerousKeywords| && HasStandalone(s, DangerousKeywords[r.value])
    ensures r.None? ==> forall j :: from <= j < |DangerousKeywords| ==> !HasStandalone(s, DangerousKeywords[j])
    decreases |DangerousKeywords| - from
  {
    if from == |DangerousKeywords| then None
    else if HasStandalone(s, DangerousKeywords[from]) then Some(from)
    else FirstStandalone(s, from + 1)
  }

  lemma Slice(q: string, a: string, k: string, b: string)
    requires q == a + k + b
    ensures q[|a|..|a| + |k|] == k
  {
    assert forall i :: 0 <= i < |k| ==> q[|a| + i] == k[i];
  }

  /** The sanitized text of `SELECT DELETED_AT FROM T` starts with SELECT and holds no
      standalone dangerous keyword: DELETE, ALTER and CREATE only appear inside longer words. */
  lemma {:induction false} DeletedAtText(q: string)
    requires q == "SELECT DELETED_AT FROM T"
    ensures StartsWith(Sanitize(q), "SELECT")
    ensures forall j :: 0 <= j < |DangerousKeywords| ==> !HasStandalone(Sanitize(q), DangerousKeywords[j])
  {
    TrimUntouched(q);
    ToUpperUntouched(q);
    UpperDeletedAtText(Sanitize(q));
  }

  lemma {:induction false} UpperDeletedAtText(s: string)
    requires s == "SELECT DELETED_AT FROM T"
    ensures StartsWith(s, "SELECT")
    ensures forall j :: 0 <= j < |DangerousKeywords| ==> !HasStandalone(s, DangerousKeywords[j])
  {
    Slice(s, "", "SELECT", " DELETED_AT FROM T");
    DeletedAtLacksLetters(s);
    DeletedAtEmbedsKeywords(s);
    NoDangerousKeyword(s);
  }

  lemma {:induction false} DeletedAtLacksLetters(s: string)
    requires s == "SELECT DELETED_AT FROM T"
    ensures !HasStandalone(s, "DROP") && !HasStandalone(s, "UPDATE")
    ensures !HasStandalone(s, "INSERT") && !HasStandalone(s, "TRUNCATE")
  {
    MissingCharacter(s, "DROP", 'P');
    MissingCharacter(s, "UPDATE", 'U');
    MissingCharacter(s, "INSERT", 'I');
    MissingCharacter(s, "TRUNCATE", 'U');
  }

  lemma {:induction false} DeletedAtEmbedsKeywords(s: string)
    requires s == "SELECT DELETED_AT FROM T"
    ensures !HasStandalone(s, "DELETE") && !HasStandalone(s, "ALTER") && !HasStandalone(s, "CREATE")
  {
    OnlyEmbedded(s, "DELETE", 'D', 'E', {7, 13});
    OnlyEmbedded(s, "ALTER", 'A', 'L', {15});
    OnlyEmbedded(s, "CREATE", 'C', 'R', {4});
  }

  lemma NoDangerousKeyword(s: string)
    requires !HasStandalone(s, "DROP") && !HasStandalone(s, "DELETE") && !HasStandalone(s, "UPDATE")
    requires !HasStandalone(s, "INSERT") && !HasStandalone(s, "ALTER") && !HasStandalone(s, "TRUNCATE")
    requires !HasStandalone(s, "CREATE")
    ensures forall j :: 0 <= j < |DangerousKeywords| ==> !HasStandalone(s, DangerousKeywords[j])
  {
  }

  /** A column such as `deleted_at`, holding DELETE inside a longer word, stops neither the
      guard as written nor the intended one. */
  lemma {:induction false} DeletedAtColumnAllowed(q: string)
    requires q == "SELECT DELETED_AT FROM T"
    ensures SqlGuard(q).None? && StrictSqlGuard(q).None?
  {
    DeletedAtText(q);
  }

  /** The query of the finding is already sanitized. */
  lemma {:induction false} EscapedDeleteSanitized(q: string)
    requires q == "SELECT 1; DELETE FROM T; -- _DELETE"
    ensures Sanitize(q) == q
  {
    TrimUntouched(q);
    ToUpperUntouched(q);
  }

  /** The query of the finding starts with SELECT, holds a standalone DELETE statement at
      position 10 and a comment holding `_DELETE` at position 28. */
  lemma {:induction false} EscapedDeleteText(s: string)
    requires s == "SELECT 1; DELETE FROM T; -- _DELETE"
    ensures StartsWith(s, "SELECT") && HasStandalone(s, "DELETE") && Contains(s, "_DELETE")
  {
    EscapedDeleteStart(s);
    EscapedDeleteStatement(s);
    EscapedDeleteComment(s);
  }

  lemma {:induction false} EscapedDeleteStart(s: string)
    requires s == "SELECT 1; DELETE FROM T; -- _DELETE"
    ensures StartsWith(s, "SELECT")
  {
    Slice(s, "", "SELECT", " 1; DELETE FROM T; -- _DELETE");
  }

  lemma {:induction false} EscapedDeleteStatement(s: string)
    requires s == "SELECT 1; DELETE FROM T; -- _DELETE"
    ensures StandaloneAt(s, "DELETE", 10)
  {
    Slice(s, "SELECT 1; ", "DELETE", " FROM T; -- _DELETE");
  }

  lemma {:induction false} EscapedDeleteComment(s: string)
    requires s == "SELECT 1; DELETE FROM T; -- _DELETE"
    ensures OccursAt(s, "_DELETE", 28)
  {
    Slice(s, "SELECT 1; DELETE FROM T; -- ", "_DELETE", "");
  }

  /** Of the other keywords, none occurs standalone in the query of the finding. */
  lemma {:induction false} EscapedDeleteLacksLetters(s: string)
    requires s == "SELECT 1; DELETE FROM T; -- _DELETE"
    ensures !HasStandalone(s, "DROP") && !HasStandalone(s, "UPDATE") && !HasStandalone(s, "INSERT")
    ensures !HasStandalone(s, "ALTER") && !HasStandalone(s, "TRUNCATE") && !HasStandalone(s, "CREATE")
  {
    assert 'P' !in s && 'I' !in s && 'A' !in s;
    OtherKeywordsAbsent(s);
  }

  /** A text without the letters P, I and A holds none of the dangerous keywords but DELETE. */
  lemma OtherKeywordsAbsent(s: string)
    requires 'P' !in s && 'I' !in s && 'A' !in s
    ensures !HasStandalone(s, "DROP") && !HasStandalone(s, "UPDATE") && !HasStandalone(s, "INSERT")
    ensures !HasStandalone(s, "ALTER") && !HasStandalone(s, "TRUNCATE") && !HasStandalone(s, "CREATE")
  {
    MissingCharacter(s, "DROP", 'P');
    MissingCharacter(s, "UPDATE", 'P');
    MissingCharacter(s, "INSERT", 'I');
    MissingCharacter(s, "ALTER", 'A');
    MissingCharacter(s, "TRUNCATE", 'A');
    MissingCharacter(s, "CREATE", 'A');
  }

  /** With `_DELETE` somewhere in the text, no keyword blocks unless one of the other six
      occurs standalone. */
  lemma WaivedDeleteNoBlocks(s: string)
    requires Contains(s, "_DELETE")
    requires !HasStandalone(s, "DROP") && !HasStandalone(s, "UPDATE") && !HasStandalone(s, "INSERT")
    requires !HasStandalone(s, "ALTER") && !HasStandalone(s, "TRUNCATE") && !HasStandalone(s, "CREATE")
    ensures forall j :: 0 <= j < |DangerousKeywords| ==> !Blocks(s, DangerousKeywords[j])
  {
    assert "_" + "DELETE" == "_DELETE";
  }

  /** As written, the escape clause waives the whole DELETE check as soon as `_DELETE` appears
      anywhere, so a query holding a standalone DELETE statement passes the guard as written,
      and `executeSqlQuery` as written hands it to the database. */
  lemma {:induction false} EscapeClauseAdmitsDelete(q: string, db: DbOutcome)
    requires Sanitize(q) == "SELECT 1; DELETE FROM T; -- _DELETE"
    ensures HasStandalone(Sanitize(q), "DELETE")
    ensures SqlGuard(q).None?
    ensures ExecuteSqlQueryAsWritten(q, db).reachedDb
  {
    var s := Sanitize(q);
    EscapedDeleteText(s);
    EscapedDeleteLacksLetters(s);
    WaivedDeleteNoBlocks(s);
  }

  /** The intended guard refuses a SELECT query with a standalone DELETE and no standalone
      DROP, naming DELETE, whatever else the query holds. */
  lemma StrictRefusesDelete(q: string)
    requires StartsWith(Sanitize(q), "SELECT")
    requires !HasStandalone(Sanitize(q), "DROP") && HasStandalone(Sanitize(q), "DELETE")
    ensures StrictSqlGuard(q) == Some("DELETE operations are not allowed")
  {
    FirstStandaloneDelete(Sanitize(q));
    assert StrictSqlGuard(q) == Some(DangerousKeywords[1] + " operations are not allowed");
    DeleteMessage();
  }

  lemma DeleteMessage()
    ensures DangerousKeywords[1] + " operations are not allowed" == "DELETE operations are not allowed"
  {
  }

  lemma FirstStandaloneDelete(s: string)
    requires !HasStandalone(s, "DROP") && HasStandalone(s, "DELETE")
    ensures FirstStandalone(s, 0) == Some(1)
  {
    assert DangerousKeywords[0] == "DROP" && DangerousKeywords[1] == "DELETE";
    assert FirstStandalone(s, 1) == Some(1);
  }

  /** The intended guard refuses the query of the finding, naming DELETE. */
  lemma {:induction false} StrictGuardRefusesEscapedDelete(q: string)
    requires Sanitize(q) == "SELECT 1; DELETE FROM T; -- _DELETE"
    ensures StrictSqlGuard(q) == Some("DELETE operations are not allowed")
  {
    var s := Sanitize(q);
    EscapedDeleteText(s);
    EscapedDeleteLacksLetters(s);
    StrictRefusesDelete(q);
  }
}
