/**
 * Application settings (`src/config.py`): the values read from the environment
 * and the database URL derived from them.
 */
module Config {
  import opened Common

  /** The settings object; field defaults are those of `DefaultSettings`. */
  datatype Settings = Settings(
    telegramBotToken: string,
    databaseUrl: string,
    postgresUser: string,
    postgresPassword: string,
    postgresDb: string,
    postgresHost: string,
    postgresPort: int,
    webPort: int,
    webappBaseUrl: string,
    modalEndpointUrl: string,
    useLocalMl: bool,
    useWebhook: bool,
    webhookUrl: string,
    webhookSecret: string)

  /** Settings with every optional field at its declared default. */
  function DefaultSettings(token: string): (s: Settings)
    ensures s.databaseUrl == "" && s.useLocalMl && !s.useWebhook
  {
    Settings(token, "", "kamyczki", "kamyczki_secret", "kamyczki_bot", "localhost", 5432,
             8080, "", "", true, false, "", "")
  }

  const Scheme: string := "postgresql+asyncpg://"

  function DigitChar(d: nat): (c: char)
    requires d < 10
    ensures '0' <= c <= '9' && c as int - '0' as int == d
  {
    ('0' as int + d) as char
  }

  /** `s.isdigit()` for the ASCII digits. */
  predicate AllDigits(s: string) {
    forall k :: 0 <= k < |s| ==> '0' <= s[k] <= '9'
  }

  /** Decimal digits of `n` without leading zeros. */
  function NatToString(n: nat): (r: string)
    ensures |r| > 0 && AllDigits(r)
  {
    if n < 10 then [DigitChar(n)] else NatToString(n / 10) + [DigitChar(n % 10)]
  }

  /** Python's `str(i)` for an integer. */
  function IntToString(i: int): (r: string)
    ensures |r| > 0
    ensures forall k :: 0 <= k < |r| ==> r[k] == '-' || '0' <= r[k] <= '9'
  {
    if i < 0 then "-" + NatToString(-i) else NatToString(i)
  }

  /** The value of a string of decimal digits. */
  function DigitsValue(s: string): nat
    requires AllDigits(s)
  {
    if s == [] then 0 else 10 * DigitsValue(s[..|s| - 1]) + (s[|s| - 1] as int - '0' as int)
  }

  /** Reads back what `IntToString` printed, or None for anything else. */
  function ParseInt(s: string): Option<int>
  {
    if |s| > 0 && s[0] == '-' then
      if |s| > 1 && AllDigits(s[1..])
      then Some(0 - DigitsValue(s[1..])) else None
    else if |s| > 0 && AllDigits(s)
    then Some(DigitsValue(s)) else None
  }

  lemma {:induction false} NatToStringValue(n: nat)
    ensures DigitsValue(NatToString(n)) == n
  {
    if n >= 10 {
      var r := NatToString(n);
      assert r[..|r| - 1] == NatToString(n / 10);
      NatToStringValue(n / 10);
    }
  }

  lemma ParseDigits(d: string)
    requires |d| > 0 && AllDigits(d)
    ensures ParseInt(d) == Some(DigitsValue(d))
  {
    assert d[0] != '-';
  }

  lemma ParseNegativeDigits(d: string)
    requires |d| > 0 && AllDigits(d)
    ensures ParseInt("-" + d) == Some(0 - DigitsValue(d))
  {
    var s := "-" + d;
    assert s[0] == '-' && s[1..] == d;
  }

  /** Lemma: `ParseInt` inverts `IntToString`. */
  lemma IntToStringRoundTrip(i: int)
    ensures ParseInt(IntToString(i)) == Some(i)
  {
    if i < 0 {
      NatToStringValue(-i);
      ParseNegativeDigits(NatToString(-i));
    } else {
      NatToStringValue(i);
      ParseDigits(NatToString(i));
    }
  }

  /**
   * `Settings.db_url`: the explicit `database_url` when it is non-empty,
   * otherwise a URL assembled from the individual connection settings.
   */
  function DbUrl(s: Settings): (r: string)
    ensures s.databaseUrl != "" ==> r == s.databaseUrl
    ensures s.databaseUrl == "" ==> |r| > |Scheme| && r[..|Scheme|] == Scheme
  {
    if s.databaseUrl != "" then s.databaseUrl
    else Scheme + (s.postgresUser + ":" + (s.postgresPassword + "@"
         + (s.postgresHost + ":" + (IntToString(s.postgresPort) + "/" + s.postgresDb))))
  }

  // ---------------------------------------------------------------------------
  // Reading a constructed URL back into its parts

  /** Index of the first `c` in `s`. */
  function IndexOf(s: string, c: char): (r: Option<nat>)
    ensures r.Some? ==> r.value < |s| && s[r.value] == c && c !in s[..r.value]
    ensures r.None? ==> c !in s
  {
    if s == [] then None
    else if s[0] == c then Some(0)
    else match IndexOf(s[1..], c)
      case None => None
      case Some(i) => assert s[..i + 1] == [s[0]] + s[1..][..i]; Some(i + 1)
  }

  /** Index of the last `c` in `s`. */
  function LastIndexOf(s: string, c: char): (r: Option<nat>)
    ensures r.Some? ==> r.value < |s| && s[r.value] == c && c !in s[r.value + 1..]
    ensures r.None? ==> c !in s
  {
    if s == [] then None
    else if s[|s| - 1] == c then Some(|s| - 1)
    else
      var init := s[..|s| - 1];
      assert s == init + [s[|s| - 1]];
      match LastIndexOf(init, c)
      case None => None
      case Some(i) => Some(i)
  }

  /** The connection parameters named by a URL. */
  datatype DbParams = DbParams(user: string, password: string, host: string, port: int, db: string)

  /** Splits `host ":" port "/" db` at the first ':' and the next '/'. */
  function ParseHostPart(hostPart: string): Option<(string, int, string)>
  {
    match IndexOf(hostPart, ':')
    case None => None
    case Some(h) =>
      var portPart := hostPart[h + 1..];
      match IndexOf(portPart, '/')
      case None => None
      case Some(q) =>
        match ParseInt(portPart[..q])
        case None => None
        case Some(port) => Some((hostPart[..h], port, portPart[q + 1..]))
  }

  /**
   * Splits `scheme user ":" password "@" host ":" port "/" db`: the user ends
   * at the first ':', the password at the last '@', the host at the next ':'
   * and the port at the next '/'.
   */
  function ParseDbUrl(url: string): Option<DbParams>
  {
    if |url| < |Scheme| || url[..|Scheme|] != Scheme then None
    else
      var rest := url[|Scheme|..];
      match IndexOf(rest, ':')
      case None => None
      case Some(i) =>
        var afterUser := rest[i + 1..];
        match LastIndexOf(afterUser, '@')
        case None => None
        case Some(j) =>
          match ParseHostPart(afterUser[j + 1..])
          case None => None
          case Some((host, port, db)) => Some(DbParams(rest[..i], afterUser[..j], host, port, db))
  }

  lemma IndexOfSplit(a: string, c: char, b: string)
    requires c !in a
    ensures IndexOf(a + [c] + b, c) == Some(|a|)
  {
    assert (a + [c] + b)[|a|] == c;
  }

  lemma LastIndexOfSplit(a: string, c: char, b: string)
    requires c !in b
    ensures LastIndexOf(a + [c] + b, c) == Some(|a|)
  {
    var s := a + [c] + b;
    assert s[|a|] == c;
    assert s[|a| + 1..] == b;
  }

  lemma HostPartRoundTrip(host: string, port: int, db: string)
    requires ':' !in host
    ensures ParseHostPart(host + ":" + (IntToString(port) + "/" + db)) == Some((host, port, db))
  {
    var ps := IntToString(port);
    var portPart := ps + "/" + db;
    var hostPart := host + ":" + portPart;
    IndexOfSplit(host, ':', portPart);
    assert hostPart[..|host|] == host;
    assert hostPart[|host| + 1..] == portPart;
    assert '/' !in ps;
    IndexOfSplit(ps, '/', db);
    assert portPart[..|ps|] == ps;
    assert portPart[|ps| + 1..] == db;
    IntToStringRoundTrip(port);
  }

  /**
   * Lemma: when the URL is assembled from the parts, `ParseDbUrl` recovers
   * them, provided the user has no ':', the host none of ':' and '@', and the
   * database name no '@'.
   */
  lemma DbUrlRoundTrip(s: Settings)
    requires s.databaseUrl == ""
    requires ':' !in s.postgresUser
    requires ':' !in s.postgresHost && '@' !in s.postgresHost
    requires '@' !in s.postgresDb
    ensures ParseDbUrl(DbUrl(s))
         == Some(DbParams(s.postgresUser, s.postgresPassword, s.postgresHost, s.postgresPort, s.postgresDb))
  {
    var hostPart := s.postgresHost + ":" + (IntToString(s.postgresPort) + "/" + s.postgresDb);
    var afterUser := s.postgresPassword + "@" + hostPart;
    UserPartRoundTrip(s.postgresUser, afterUser);
    PasswordPartRoundTrip(s.postgresPassword, s.postgresHost, s.postgresPort, s.postgresDb);
    ParsedParts(DbUrl(s), s.postgresUser, afterUser, DbParams(s.postgresUser, s.postgresPassword, s.postgresHost, s.postgresPort, s.postgresDb));
  }

  /** Lemma: a URL whose user part and password part read back as `p` parses to `p`. */
  lemma ParsedParts(url: string, user: string, afterUser: string, p: DbParams)
    requires |url| >= |Scheme| && url[..|Scheme|] == Scheme
    requires var rest := url[|Scheme|..];
             IndexOf(rest, ':') == Some(|user|) && rest[..|user|] == user && rest[|user| + 1..] == afterUser
    requires user == p.user
    requires LastIndexOf(afterUser, '@') == Some(|p.password|) && afterUser[..|p.password|] == p.password
    requires ParseHostPart(afterUser[|p.password| + 1..]) == Some((p.host, p.port, p.db))
    ensures ParseDbUrl(url) == Some(p)
  {
  }

  /** Lemma: after the scheme, the user runs to the first ':'. */
  lemma UserPartRoundTrip(user: string, afterUser: string)
    requires ':' !in user
    ensures var url := Scheme + (user + ":" + afterUser);
            var rest := url[|Scheme|..];
            && |url| >= |Scheme| && url[..|Scheme|] == Scheme
            && IndexOf(rest, ':') == Some(|user|)
            && rest[..|user|] == user && rest[|user| + 1..] == afterUser
  {
    var rest := user + ":" + afterUser;
    assert (Scheme + rest)[..|Scheme|] == Scheme;
    assert (Scheme + rest)[|Scheme|..] == rest;
    IndexOfSplit(user, ':', afterUser);
    assert rest[..|user|] == user;
    assert rest[|user| + 1..] == afterUser;
  }

  /** Lemma: the password runs to the last '@', and the host part after it reads back. */
  lemma PasswordPartRoundTrip(password: string, host: string, port: int, db: string)
    requires ':' !in host && '@' !in host && '@' !in db
    ensures var hostPart := host + ":" + (IntToString(port) + "/" + db);
            var afterUser := password + "@" + hostPart;
            && LastIndexOf(afterUser, '@') == Some(|password|)
            && afterUser[..|password|] == password
            && ParseHostPart(afterUser[|password| + 1..]) == Some((host, port, db))
  {
    var ps := IntToString(port);
    var hostPart := host + ":" + (ps + "/" + db);
    var afterUser := password + "@" + hostPart;
    assert '@' !in ps;
    assert '@' !in hostPart;
    LastIndexOfSplit(password, '@', hostPart);
    assert afterUser[..|password|] == password;
    assert afterUser[|password| + 1..] == hostPart;
    HostPartRoundTrip(host, port, db);
  }

  /** Lemma: the default port is written "5432". */
  lemma PortText()
    ensures IntToString(5432) == "5432"
  {
    assert NatToString(5) == "5";
    assert NatToString(54) == "54";
    assert NatToString(543) == "543";
  }

  /** The default host part, `localhost:5432/kamyczki_bot`. */
  lemma DefaultHostPart()
    ensures "localhost" + ":" + (IntToString(5432) + "/" + "kamyczki_bot") == "localhost:5432/kamyczki_bot"
  {
    PortText();
  }

  /** The default password in front of the default host part. */
  lemma DefaultPasswordPart()
    ensures "kamyczki_secret" + "@" + "localhost:5432/kamyczki_bot" == "kamyczki_secret@localhost:5432/kamyczki_bot"
  {
  }

  /** The scheme and the default user, in front of any rest of the URL. */
  lemma DefaultUserPrefix(rest: string)
    ensures Scheme + ("kamyczki" + ":" + rest) == "postgresql+asyncpg://kamyczki:" + rest
  {
    assert Scheme + "kamyczki" + ":" == "postgresql+asyncpg://kamyczki:";
  }

  /** Lemma: the text of the default URL, character for character. */
  lemma DefaultDbUrlText(token: string)
    ensures DbUrl(DefaultSettings(token)) == "postgresql+asyncpg://kamyczki:" + "kamyczki_secret@localhost:5432/kamyczki_bot"
  {
    var hostPart := "localhost" + ":" + (IntToString(5432) + "/" + "kamyczki_bot");
    DefaultHostPart();
    var afterUser := "kamyczki_secret" + "@" + hostPart;
    DefaultPasswordPart();
    assert DbUrl(DefaultSettings(token)) == Scheme + ("kamyczki" + ":" + afterUser);
    DefaultUserPrefix(afterUser);
  }

  /**
   * Lemma: with the default settings the URL is the one for user `kamyczki`,
   * password `kamyczki_secret`, host `localhost`, port 5432 and database
   * `kamyczki_bot`.
   */
  lemma DefaultDbUrl(token: string)
    ensures DbUrl(DefaultSettings(token)) == "postgresql+asyncpg://kamyczki:" + "kamyczki_secret@localhost:5432/kamyczki_bot"
    ensures ParseDbUrl(DbUrl(DefaultSettings(token)))
         == Some(DbParams("kamyczki", "kamyczki_secret", "localhost", 5432, "kamyczki_bot"))
  {
    DefaultDbUrlText(token);
    DbUrlRoundTrip(DefaultSettings(token));
  }
}
