/** Environment selection and URL joining (data/network/BaseService.kt). The services' own private
    `buildUrl` helpers join paths the same way onto a configured base, so they use `JoinUrl`. */
module BaseService {
  import opened Wrappers

  /** IDDigitalSDKEnvironment. Its declaration is not part of this model; the exhaustive `when` over
      it names exactly these two constants. */
  datatype Environment = Staging | Production

  /** `IDDigitalSDKEnvironment.valueOf`: exact, case-sensitive match on the constant's name;
      `None` stands for the IllegalArgumentException it throws otherwise. */
  function ValueOf(name: string): (r: Option<Environment>)
    ensures r == Some(Staging) <==> name == "STAGING"
    ensures r == Some(Production) <==> name == "PRODUCTION"
  {
    if name == "STAGING" then Some(Staging)
    else if name == "PRODUCTION" then Some(Production)
    else None
  }

  /** The environment the configured (nullable) property selects: an absent name means production,
      and a rejected name falls back to production. */
  function SelectEnvironment(name: Option<string>): (e: Environment)
  {
    match ValueOf(name.GetOr("PRODUCTION"))
    case Some(v) => v
    case None => Production
  }

  const StagingUrl: string := "https://auth.identificaciondigital.com.uy/api/v2/sdk"
  const ProductionUrl: string := "https://auth.identidaddigital.com.uy/api/v2/sdk"

  function BaseUrl(e: Environment): string {
    match e
    case Staging => StagingUrl
    case Production => ProductionUrl
  }

  /** Only the exact name "STAGING" selects staging; every other name, and no name, selects
      production. */
  lemma StagingIff(name: Option<string>)
    ensures SelectEnvironment(name) == Staging <==> name == Some("STAGING")
    ensures SelectEnvironment(name) == Production <==> name != Some("STAGING")
  {
  }

  /** `s.trimEnd(c)`: the longest prefix of `s` that does not end in `c`, such that everything
      removed is `c`. */
  function TrimEnd(s: string, c: char): (r: string)
    ensures |r| <= |s| && r == s[..|r|]
    ensures |r| == 0 || r[|r| - 1] != c
    ensures forall i :: |r| <= i < |s| ==> s[i] == c
    decreases |s|
  {
    if |s| > 0 && s[|s| - 1] == c then TrimEnd(s[..|s| - 1], c) else s
  }

  /** The strings made of `n` copies of one character. */
  function Repeat(c: char, n: nat): (r: string)
    ensures |r| == n
    ensures forall i :: 0 <= i < n ==> r[i] == c
  {
    if n == 0 then [] else Repeat(c, n - 1) + [c]
  }

  /** Appending any run of `c` to a string changes nothing once `c` is trimmed from the end. */
  lemma {:induction false} TrimEndAbsorbsRun(s: string, c: char, n: nat)
    ensures TrimEnd(s + Repeat(c, n), c) == TrimEnd(s, c)
    decreases n
  {
    if n > 0 {
      var t := s + Repeat(c, n);
      assert t[..|t| - 1] == s + Repeat(c, n - 1);
      TrimEndAbsorbsRun(s, c, n - 1);
    } else {
      assert s + Repeat(c, 0) == s;
    }
  }

  /** A string that does not end in `c` is its own trim. */
  lemma TrimEndNoop(s: string, c: char)
    requires |s| == 0 || s[|s| - 1] != c
    ensures TrimEnd(s, c) == s
  {
  }

  /** `"${base.trimEnd('/')}/$path"`. */
  function JoinUrl(base: string, path: string): string {
    TrimEnd(base, '/') + "/" + path
  }

  /** `buildUrl` of BaseService, for the configured environment name. */
  function BuildUrl(environmentName: Option<string>, path: string): string {
    JoinUrl(BaseUrl(SelectEnvironment(environmentName)), path)
  }

  /** Neither base constant ends in '/', so the joined URL is the base, one slash and the path. */
  lemma BuildUrlIsPlainJoin(environmentName: Option<string>, path: string)
    ensures BuildUrl(environmentName, path) == BaseUrl(SelectEnvironment(environmentName)) + "/" + path
  {
    TrimEndNoop(BaseUrl(SelectEnvironment(environmentName)), '/');
  }

  /** Trailing slashes on a base never double the separator. */
  lemma JoinUrlIgnoresTrailingSlashes(base: string, n: nat, path: string)
    ensures JoinUrl(base + Repeat('/', n), path) == JoinUrl(base, path)
  {
    TrimEndAbsorbsRun(base, '/', n);
  }
}
