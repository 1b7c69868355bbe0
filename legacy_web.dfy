/**
 * The request checks of the `fordevs.dynamicqueryengine` service and controller,
 * which carry identical copies of them: the credential validator and the
 * character-class filter on ad-hoc queries.
 */
module LegacyWeb {
  import opened Wrappers
  import opened LegacyConfig

  /** A String that is neither null nor empty. */
  predicate Present(s: Option<string>)
  {
    s.Some? && s.value != ""
  }

  /**
   * `validateCredentials(credentials)`: database name, host, user name and
   * password present. The user name is the DTO's `user` field.
   */
  predicate ValidateCredentials(c: DatabaseCredentials)
  {
    Present(c.databaseName) && Present(c.host) && Present(c.user) && Present(c.password)
  }

  /** The database kind and the port play no part in validation. */
  lemma ValidationIgnoresKindAndPort(c: DatabaseCredentials, databaseManager: Option<string>, port: Option<int>)
    ensures ValidateCredentials(c.(databaseManager := databaseManager, port := port)) == ValidateCredentials(c)
  {
  }

  /** Each of the four checked fields, null or empty, is enough to reject. */
  lemma ValidationNeedsEachField(c: DatabaseCredentials, missing: Option<string>)
    requires !Present(missing)
    ensures !ValidateCredentials(c.(databaseName := missing))
    ensures !ValidateCredentials(c.(host := missing))
    ensures !ValidateCredentials(c.(user := missing))
    ensures !ValidateCredentials(c.(password := missing))
  {
  }

  /** Java's `\s`: space, tab, line feed, vertical tab, form feed, carriage return. */
  predicate IsJavaWhitespace(ch: char)
  {
    ch == ' ' || ch == '\t' || ch == '\n' || ch == '\U{B}' || ch == '\U{C}' || ch == '\r'
  }

  /** One character of the class `[a-zA-Z0-9_\s,=*'();]`. */
  predicate IsQueryChar(ch: char)
  {
    || 'a' <= ch <= 'z' || 'A' <= ch <= 'Z' || '0' <= ch <= '9' || ch == '_'
    || IsJavaWhitespace(ch)
    || ch == ',' || ch == '=' || ch == '*' || ch == '\'' || ch == '(' || ch == ')' || ch == ';'
  }

  /** `isValidQuery`: the whole query matches `^[a-zA-Z0-9_\s,=*'();]*$`. */
  predicate IsValidQuery(query: string)
  {
    query == [] || (IsQueryChar(query[0]) && IsValidQuery(query[1..]))
  }

  /** The regular expression accepts exactly the strings made only of allowed characters. */
  lemma {:induction false} ValidQueryEveryChar(query: string)
    ensures IsValidQuery(query) <==> forall i :: 0 <= i < |query| ==> IsQueryChar(query[i])
  {
    if query != [] {
      ValidQueryEveryChar(query[1..]);
      assert forall i :: 1 <= i < |query| ==> query[i] == query[1..][i - 1];
    }
  }

  /** A concatenation is accepted exactly when both halves are. */
  lemma ValidQueryConcat(a: string, b: string)
    ensures IsValidQuery(a + b) <==> IsValidQuery(a) && IsValidQuery(b)
  {
    ValidQueryEveryChar(a);
    ValidQueryEveryChar(b);
    ValidQueryEveryChar(a + b);
    if IsValidQuery(a + b) {
      assert forall i :: 0 <= i < |a| ==> a[i] == (a + b)[i];
      assert forall i :: 0 <= i < |b| ==> b[i] == (a + b)[|a| + i];
    }
  }

  /** One character outside the class anywhere in the query is enough to reject it. */
  lemma RejectsOutsideChar(before: string, ch: char, after: string)
    requires !IsQueryChar(ch)
    ensures !IsValidQuery(before + [ch] + after)
  {
    ValidQueryConcat(before + [ch], after);
    ValidQueryConcat(before, [ch]);
  }

  /** A plain query passes the filter. */
  lemma AcceptsPlainSelect(query: string)
    requires query == "SELECT * FROM users;"
    ensures IsValidQuery(query)
  {
    ValidQueryEveryChar(query);
    assert forall i :: 0 <= i < |query| ==> IsQueryChar(query[i]);
  }

  /** A schema-qualified table name is rejected: '.' is not in the class. */
  lemma RejectsQualifiedName()
    ensures !IsValidQuery("SELECT * FROM public.users")
  {
    RejectsOutsideChar("SELECT * FROM public", '.', "users");
    assert "SELECT * FROM public" + ['.'] + "users" == "SELECT * FROM public.users";
  }

  /** An SQL line comment is rejected: '-' is not in the class. */
  lemma RejectsLineComment()
    ensures !IsValidQuery("1;--")
  {
  }
}
