/**
 * JDBC connection URLs of the form `jdbc:<subprotocol>://<host>:<port>/<database>`,
 * and a reader for them that is independent of how they are built.
 */
module JdbcUrl {
  import opened Wrappers

  datatype UrlParts = UrlParts(subprotocol: string, host: string, port: string, databaseName: string)

  /** The URL text the registries hand to the pool configuration. */
  function Build(subprotocol: string, host: string, port: string, databaseName: string): string
  {
    "jdbc:" + subprotocol + "://" + host + ":" + port + "/" + databaseName
  }

  /** Cuts `s` at the first occurrence of `ch`, if there is one. */
  function SplitFirst(s: string, ch: char): (r: Option<(string, string)>)
    ensures r.Some? ==> s == r.value.0 + [ch] + r.value.1 && ch !in r.value.0
    ensures r.None? ==> ch !in s
  {
    if s == [] then None
    else if s[0] == ch then Some(([], s[1..]))
    else
      match SplitFirst(s[1..], ch)
      case None => None
      case Some((a, b)) => Some(([s[0]] + a, b))
  }

  lemma {:induction false} SplitFirstConcat(p: string, ch: char, q: string)
    requires ch !in p
    ensures SplitFirst(p + [ch] + q, ch) == Some((p, q))
  {
    var s := p + [ch] + q;
    if p == [] {
      assert s[1..] == q;
    } else {
      assert s[1..] == p[1..] + [ch] + q;
      SplitFirstConcat(p[1..], ch, q);
      assert [p[0]] + p[1..] == p;
    }
  }

  /** Reads `host:port/database`: the host up to the first ':', the port up to the next '/'. */
  function ParseAuthority(s: string): (r: Option<(string, string, string)>)
    ensures r.Some? ==> s == r.value.0 + ":" + r.value.1 + "/" + r.value.2
  {
    match SplitFirst(s, ':')
    case None => None
    case Some((host, rest)) =>
      match SplitFirst(rest, '/')
      case None => None
      case Some((port, db)) => Some((host, port, db))
  }

  /**
   * Reads a URL back into its four parts: "jdbc:", the subprotocol up to the
   * first ':', then "//" and the authority as above, the rest being the
   * database name. Whatever it accepts, it accepts exactly.
   */
  function Parse(url: string): (r: Option<UrlParts>)
    ensures r.Some? ==> Build(r.value.subprotocol, r.value.host, r.value.port, r.value.databaseName) == url
  {
    if |url| < 5 || url[..5] != "jdbc:" then None
    else
      match SplitFirst(url[5..], ':')
      case None => None
      case Some((sub, rest)) =>
        if |rest| < 2 || rest[..2] != "//" then None
        else
          match ParseAuthority(rest[2..])
          case None => None
          case Some((host, port, db)) =>
            BuildFromPieces(url, sub, rest, host, port, db);
            Some(UrlParts(sub, host, port, db))
  }

  lemma BuildFromPieces(url: string, sub: string, rest: string, host: string, port: string, db: string)
    requires |url| >= 5 && url[..5] == "jdbc:" && url[5..] == sub + [':'] + rest
    requires |rest| >= 2 && rest[..2] == "//" && rest[2..] == host + ":" + port + "/" + db
    ensures Build(sub, host, port, db) == url
  {
    var tail := host + ":" + port + "/" + db;
    calc {
      url;
      url[..5] + url[5..];
      "jdbc:" + (sub + ":" + (rest[..2] + rest[2..]));
      "jdbc:" + (sub + ":" + ("//" + tail));
      { assert "jdbc:" + (sub + ":" + ("//" + tail)) == "jdbc:" + sub + "://" + tail; }
      "jdbc:" + sub + "://" + tail;
    }
    assert "jdbc:" + sub + "://" + tail == Build(sub, host, port, db);
  }

  /** Reading a built URL gives back its parts when the separators do not occur inside them. */
  lemma ParseBuild(subprotocol: string, host: string, port: string, databaseName: string)
    requires ':' !in subprotocol && ':' !in host && '/' !in port
    ensures Parse(Build(subprotocol, host, port, databaseName)) == Some(UrlParts(subprotocol, host, port, databaseName))
  {
    var rest2 := port + "/" + databaseName;
    var rest := "//" + host + ":" + rest2;
    var url := Build(subprotocol, host, port, databaseName);
    assert url[..5] == "jdbc:";
    assert url[5..] == subprotocol + ":" + rest;
    SplitFirstConcat(subprotocol, ':', rest);
    assert rest[..2] == "//" && rest[2..] == host + ":" + rest2;
    SplitFirstConcat(host, ':', rest2);
    SplitFirstConcat(port, '/', databaseName);
  }
}
