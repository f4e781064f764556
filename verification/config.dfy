/** core/config.py: the application settings, with their defaults, and the
    list of allowed CORS origins derived from the comma-separated setting. */
module Config {
  import opened Lists
  import opened Strings

  datatype Settings = Settings(
    appEnv: string, dbUrl: string, jwtSecret: string, jwtAlg: string,
    accessTtlMin: int, refreshTtlDays: int, corsOrigins: string)

  /** The default of `CORS_ORIGINS`: four origins separated by commas. */
  const DefaultCorsOrigins :=
    "http://localhost:5173," + "http://localhost:5174," + "http://127.0.0.1:5173," + "http://127.0.0.1:5174"

  /** The settings when the environment sets only the two required values,
      the database URL and the JWT secret. */
  function Defaults(dbUrl: string, jwtSecret: string): (s: Settings)
    ensures s.appEnv == "dev" && s.jwtAlg == "HS256"
    ensures s.accessTtlMin == 30 && s.refreshTtlDays == 7
    ensures s.dbUrl == dbUrl && s.jwtSecret == jwtSecret
    ensures s.corsOrigins == DefaultCorsOrigins
  {
    Settings("dev", dbUrl, jwtSecret, "HS256", 30, 7, DefaultCorsOrigins)
  }

  predicate NonEmpty(s: string) { s != [] }

  /** A value that may appear in the origins list: non-empty, no comma, and
      no whitespace at either end. */
  predicate IsOrigin(s: string) {
    s != [] && ',' !in s && !IsSpace(s[0]) && !IsSpace(s[|s| - 1])
  }

  /** `cors_origins_list`: the comma-separated pieces, stripped, with the
      empty ones dropped, in their order. */
  function CorsOriginsList(corsOrigins: string): (r: seq<string>)
    ensures forall i :: 0 <= i < |r| ==> IsOrigin(r[i])
  {
    var pieces := Split(corsOrigins, ',');
    var stripped := Map(pieces, Strip);
    StrippedHaveNoComma(pieces);
    Filter(stripped, NonEmpty)
  }

  /** Pieces without a comma have none once stripped. */
  lemma StrippedHaveNoComma(pieces: seq<string>)
    requires forall i :: 0 <= i < |pieces| ==> ',' !in pieces[i]
    ensures forall i :: 0 <= i < |Map(pieces, Strip)| ==> ',' !in Map(pieces, Strip)[i]
  {
    var m := Map(pieces, Strip);
    forall i | 0 <= i < |m| ensures ',' !in m[i] {
      StripSubstring(pieces[i]);
    }
  }

  /** Stripping only takes characters away from the ends. */
  lemma StripSubstring(s: string)
    ensures forall c :: c in Strip(s) ==> c in s
  {
    var i := LeadingSpaces(s);
    var k := TrailingSpaces(s[i..]);
    assert Strip(s) == s[i..|s| - k];
  }

  /** The list is the inverse of writing origins separated by commas: any
      non-empty list of origins survives the round trip, in order. */
  lemma OriginsRoundTrip(origins: seq<string>)
    requires |origins| >= 1
    requires forall i :: 0 <= i < |origins| ==> IsOrigin(origins[i])
    ensures CorsOriginsList(Join(origins, ",")) == origins
  {
    SplitJoin(origins, ',');
    assert Split(Join(origins, ","), ',') == origins;
    StripOrigins(origins);
    forall i | 0 <= i < |origins| ensures NonEmpty(origins[i]) {
    }
    FilterAll(origins, NonEmpty);
  }

  lemma StripOrigins(origins: seq<string>)
    requires forall i :: 0 <= i < |origins| ==> IsOrigin(origins[i])
    ensures Map(origins, Strip) == origins
  {
    var m := Map(origins, Strip);
    forall i | 0 <= i < |m| ensures m[i] == origins[i] {
      StripTrimmed(origins[i]);
    }
  }

  /** Blank pieces, such as the one a trailing comma leaves, are dropped. */
  lemma TrailingCommaIgnored(origin: string)
    requires IsOrigin(origin)
    ensures CorsOriginsList(origin + ",") == [origin]
  {
    var pieces := [origin, ""];
    assert pieces[1..] == [""];
    assert Join(pieces, ",") == origin + ",";
    SplitJoin(pieces, ',');
    StripTrimmed(origin);
    var m := Map(pieces, Strip);
    assert m == pieces;
    assert Filter(pieces[1..], NonEmpty) == [];
  }

  /** The default setting gives exactly the four local development origins. */
  lemma DefaultOrigins()
    ensures CorsOriginsList(DefaultCorsOrigins) ==
      ["http://localhost:5173", "http://localhost:5174", "http://127.0.0.1:5173", "http://127.0.0.1:5174"]
  {
    var origins := ["http://localhost:5173", "http://localhost:5174", "http://127.0.0.1:5173", "http://127.0.0.1:5174"];
    assert Join(origins[3..], ",") == "http://127.0.0.1:5174";
    assert Join(origins[2..], ",") == "http://127.0.0.1:5173," + "http://127.0.0.1:5174";
    assert Join(origins[1..], ",") == "http://localhost:5174," + "http://127.0.0.1:5173," + "http://127.0.0.1:5174";
    assert origins[1..] == ["http://localhost:5174", "http://127.0.0.1:5173", "http://127.0.0.1:5174"];
    assert Join(origins, ",") == DefaultCorsOrigins;
    forall i | 0 <= i < |origins| ensures IsOrigin(origins[i]) {
    }
    OriginsRoundTrip(origins);
  }
}
