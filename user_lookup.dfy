/** The two user lookups of the data-access layer: a falsy argument is refused
    before any query is sent; otherwise one parameterised SELECT goes out and
    the first row that comes back, if any, is the user. The database's answer
    is a parameter: what the pool returned for the query. */
module UserLookup {
  import opened Wrappers
  import opened Truthiness
  import opened Sql

  /** A row of the `users` table. */
  datatype User = User(id: int, name: string, email: string, password: string)

  /** What the pool hands back for a query: its rows, or the error it failed with. */
  datatype Answer = Rows(rows: seq<User>) | Failed(error: string)

  /** What the returned promise settles to once the query has gone out: the
      first row, `null` when there was none, or `undefined` when the query
      failed and the error was logged and swallowed. */
  datatype Resolution = Row(user: User) | Null | Undefined

  /** A lookup either rejects before querying, or issues `query` and resolves. */
  datatype Outcome = Rejected(message: string) | Resolved(query: Query, value: Resolution)

  const EmailRequired: string := "Email is required"
  const IdRequired: string := "ID is required"
  const UsersByEmail: string := "SELECT * FROM users\n    WHERE email = "
  const UsersById: string := "SELECT * FROM users\n    WHERE id = "

  /** The single-parameter query `prefix$1;` with `param` as its `$1`. */
  function ByParameter(prefix: string, param: Param): Query {
    Query([Sql(prefix), Placeholder(1), Sql(";")], [param])
  }

  /** The text sent to the server is the template with `$1` closing the condition. */
  lemma {:induction false} ByParameterText(prefix: string, param: Param)
    ensures Render(ByParameter(prefix, param).tokens) == prefix + "$1;"
  {
    RenderClose([], prefix, 1, ";");
    assert [] + [Sql(prefix), Placeholder(1), Sql(";")] == ByParameter(prefix, param).tokens;
    assert Decimal(1) == "1";
  }

  /** The one placeholder is `$1` and it stands for the one parameter. */
  lemma {:induction false} ByParameterBinds(prefix: string, param: Param)
    ensures Placeholders(ByParameter(prefix, param).tokens) == Consecutive(1, 1)
    ensures Bind(ByParameter(prefix, param).tokens, ByParameter(prefix, param).params)
         == [Word(prefix), Value(param), Word(";")]
  {
    PlaceholdersTriple(Sql(prefix), Placeholder(1), Sql(";"));
    BindTriple(Sql(prefix), Placeholder(1), Sql(";"), [param]);
  }

  /** `result.rows.length > 0 ? result.rows[0] : null`. */
  function FirstRow(rows: seq<User>): (r: Resolution)
    ensures r.Null? <==> rows == []
    ensures r.Row? ==> r.user == rows[0]
    ensures !r.Undefined?
  {
    if |rows| > 0 then Row(rows[0]) else Null
  }

  /** The `.then` / `.catch` pair: rows give the first row or `null`; a failed
      query is logged and the promise resolves to `undefined`. */
  function Settle(answer: Answer): (r: Resolution)
    ensures r.Undefined? <==> answer.Failed?
    ensures answer.Rows? ==> r == FirstRow(answer.rows)
  {
    match answer
    case Rows(rows) => FirstRow(rows)
    case Failed(_) => Undefined
  }

  /** `getUserWithEmail`. */
  function GetUserWithEmail(email: Option<string>, answer: Answer): (r: Outcome)
    ensures r.Rejected? <==> !GivenText(email)
    ensures r.Rejected? ==> r.message == EmailRequired
    ensures r.Resolved? ==> r.query == ByParameter(UsersByEmail, Text(email.value))
    ensures r.Resolved? ==> r.value == Settle(answer)
  {
    if !GivenText(email) then Rejected(EmailRequired)
    else Resolved(ByParameter(UsersByEmail, Text(email.value)), Settle(answer))
  }

  /** `getUserWithId`. */
  function GetUserWithId(id: Option<int>, answer: Answer): (r: Outcome)
    ensures r.Rejected? <==> !GivenNumber(id)
    ensures r.Rejected? ==> r.message == IdRequired
    ensures r.Resolved? ==> r.query == ByParameter(UsersById, Num(id.value))
    ensures r.Resolved? ==> r.value == Settle(answer)
  {
    if !GivenNumber(id) then Rejected(IdRequired)
    else Resolved(ByParameter(UsersById, Num(id.value)), Settle(answer))
  }

  /** A supplied email is the only value the server sees, in the WHERE
      condition on `email`; a user handed back is the first row returned. */
  lemma {:induction false} EmailLookupSound(email: Option<string>, answer: Answer)
    requires GivenText(email)
    ensures var r := GetUserWithEmail(email, answer);
      Bind(r.query.tokens, r.query.params) == [Word(UsersByEmail), Value(Text(email.value)), Word(";")]
      && (r.value.Row? <==> answer.Rows? && answer.rows != [])
      && (r.value.Row? ==> r.value.user == answer.rows[0])
  {
    ByParameterBinds(UsersByEmail, Text(email.value));
  }

  /** The same for a supplied id, in the WHERE condition on `id`. */
  lemma {:induction false} IdLookupSound(id: Option<int>, answer: Answer)
    requires GivenNumber(id)
    ensures var r := GetUserWithId(id, answer);
      Bind(r.query.tokens, r.query.params) == [Word(UsersById), Value(Num(id.value)), Word(";")]
      && (r.value.Row? <==> answer.Rows? && answer.rows != [])
      && (r.value.Row? ==> r.value.user == answer.rows[0])
  {
    ByParameterBinds(UsersById, Num(id.value));
  }

  /** A refused lookup does not depend on what the database would have said:
      no query is sent, so every answer gives the same rejection. */
  lemma {:induction false} RejectionIgnoresAnswer(email: Option<string>, id: Option<int>, a: Answer, b: Answer)
    ensures !GivenText(email) ==> GetUserWithEmail(email, a) == GetUserWithEmail(email, b) == Rejected(EmailRequired)
    ensures !GivenNumber(id) ==> GetUserWithId(id, a) == GetUserWithId(id, b) == Rejected(IdRequired)
  {
  }
}
