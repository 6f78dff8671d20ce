/** The server's settings helpers (server/src/config.py). */
module Config {
  import opened Text

  const DefaultEnvironment := "development"
  const DefaultCorsOrigins := "http://localhost:3000"
  /** The default of `ACCESS_TOKEN_EXPIRE_MINUTES`; the environment may set another lifetime. */
  const DefaultAccessTokenExpireMinutes := 30

  /**
   * The value the CORS_ORIGINS validator receives: the raw text from the environment, or a
   * value that is already a list of origins.
   */
  datatype CorsOrigins = Raw(text: string) | Listed(origins: seq<string>)

  /**
   * The `CORS_ORIGINS` validator: text is split on commas and every piece is stripped of
   * surrounding whitespace, empty pieces included; any other value passes through unchanged.
   */
  function ParseCorsOrigins(v: CorsOrigins): (r: CorsOrigins)
    ensures r.Listed?
    ensures v.Listed? ==> r == v
    ensures v.Raw? ==> |r.origins| == Count(v.text, ',') + 1
    ensures v.Raw? ==> forall i :: 0 <= i < |r.origins| ==> r.origins[i] == Strip(Split(v.text, ',')[i])
  {
    match v
    case Raw(text) =>
      var pieces := Split(text, ',');
      Listed(seq(|pieces|, i requires 0 <= i < |pieces| => Strip(pieces[i])))
    case Listed(_) => v
  }

  /** No parsed origin holds a comma or begins or ends with whitespace. */
  lemma {:induction false} ParsedOriginsAreClean(text: string)
    ensures forall o :: o in ParseCorsOrigins(Raw(text)).origins ==> Clean(o)
  {
    var pieces := Split(text, ',');
    var origins := ParseCorsOrigins(Raw(text)).origins;
    forall i | 0 <= i < |origins| ensures Clean(origins[i]) {
      StripAddsNothing(pieces[i], ',');
    }
  }

  /** An origin as the server compares it: no comma, and no whitespace at either end. */
  predicate Clean(o: string)
  {
    ',' !in o && (|o| > 0 ==> !IsSpace(o[0]) && !IsSpace(o[|o| - 1]))
  }

  /** Stripping only removes characters, so it brings in none that were absent. */
  lemma StripAddsNothing(p: string, c: char)
    requires c !in p
    ensures c !in Strip(p)
  {
    var o := Strip(p);
    var j := LeadingSpaces(p);
    forall k | 0 <= k < |o| ensures o[k] != c {
      assert o[k] == p[j + k];
    }
  }

  /** With no commas in the text, the result is the one stripped origin. */
  lemma {:induction false} SingleOrigin(text: string)
    requires ',' !in text
    ensures ParseCorsOrigins(Raw(text)) == Listed([Strip(text)])
  {
    SplitSeparatorFree(text, ',');
  }

  /** The default setting is a single piece. */
  lemma DefaultOriginIsOnePiece()
    ensures ParseCorsOrigins(Raw(DefaultCorsOrigins)) == Listed([Strip(DefaultCorsOrigins)])
  {
    SingleOrigin(DefaultCorsOrigins);
  }

  /** A string with no whitespace at either end is its own strip. */
  lemma StripUnpadded(s: string)
    requires |s| > 0 && !IsSpace(s[0]) && !IsSpace(s[|s| - 1])
    ensures Strip(s) == s
  {
    assert LeadingSpaces(s) == 0;
    assert s[0..] == s;
  }

  /** The default origin setting parses to a one-element list holding the default origin. */
  lemma DefaultCorsOriginsParse()
    ensures ParseCorsOrigins(Raw(DefaultCorsOrigins)) == Listed([DefaultCorsOrigins])
  {
    assert Strip(DefaultCorsOrigins) == DefaultCorsOrigins by {
      StripUnpadded(DefaultCorsOrigins);
    }
    DefaultOriginIsOnePiece();
  }

  /** `is_production`: the environment setting equals "production". */
  function IsProduction(environment: string): (r: bool)
    ensures r <==> environment == "production"
    ensures r ==> environment != DefaultEnvironment
  {
    environment == "production"
  }

  /** `is_development`: the environment setting equals "development". */
  function IsDevelopment(environment: string): (r: bool)
    ensures r <==> environment == "development"
    ensures r ==> !IsProduction(environment)
  {
    environment == "development"
  }

  /** The default environment is development and therefore not production. */
  lemma DefaultIsDevelopment()
    ensures IsDevelopment(DefaultEnvironment) && !IsProduction(DefaultEnvironment)
  {
  }
}
