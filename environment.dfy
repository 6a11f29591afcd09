/**
 * The process environment and the two rules the repository uses to decide
 * which required variables are missing.
 *
 * The environment is the variable map as it stands after `load_dotenv()` has run;
 * reading the `.env` file is not part of this model.
 */
module Environment {
  import opened Wrappers

  type Env = map<string, string>

  const GOOGLE_API_KEY := "GOOGLE_API_KEY"
  const ASTRA_DB_API_ENDPOINT := "ASTRA_DB_API_ENDPOINT"
  const ASTRA_DB_APPLICATION_TOKEN := "ASTRA_DB_APPLICATION_TOKEN"
  const ASTRA_DB_KEYSPACE := "ASTRA_DB_KEYSPACE"

  /**
   * The variables that `DataIngestion._load_env_variables` and
   * `Retriever._load_env_variables` each require, in the order both check them
   * (the two files declare the same list).
   */
  const ASTRA_REQUIRED_VARS: seq<string> :=
    [GOOGLE_API_KEY, ASTRA_DB_API_ENDPOINT, ASTRA_DB_APPLICATION_TOKEN, ASTRA_DB_KEYSPACE]

  /** EnvironmentError("Missing environment variables: [...]"), carrying the list it prints. */
  datatype EnvError = MissingEnvironmentVariables(names: seq<string>)

  /** `os.getenv(name)`: the value if the variable is set, None otherwise. */
  function GetEnv(env: Env, name: string): (r: Option<string>)
    ensures r.Some? <==> name in env
    ensures r.Some? ==> r.value == env[name]
  {
    if name in env then Some(env[name]) else None
  }

  /** `a` can be obtained from `b` by deleting elements: `a` keeps `b`'s order. */
  ghost predicate IsSubsequence(a: seq<string>, b: seq<string>)
    decreases |b|
  {
    if a == [] then true
    else if b == [] then false
    else (a[0] == b[0] && IsSubsequence(a[1..], b[1..])) || IsSubsequence(a, b[1..])
  }

  /** A list comprehension `[x for x in xs if keep(x)]`. */
  function Filter(xs: seq<string>, keep: string -> bool): (r: seq<string>)
    ensures |r| <= |xs|
    ensures IsSubsequence(r, xs)
    ensures forall x :: x in r <==> x in xs && keep(x)
  {
    if xs == [] then []
    else
      var rest := Filter(xs[1..], keep);
      assert xs == [xs[0]] + xs[1..];
      if keep(xs[0]) then
        assert ([xs[0]] + rest)[1..] == rest;
        [xs[0]] + rest
      else
        rest
  }

  /**
   * With the subsequence property, this pins the filter down completely: every kept
   * element occurs as often as in the input, every other not at all.
   */
  lemma {:induction false} FilterMultiplicity(xs: seq<string>, keep: string -> bool, x: string)
    ensures multiset(Filter(xs, keep))[x] == if keep(x) then multiset(xs)[x] else 0
  {
    if xs != [] {
      FilterMultiplicity(xs[1..], keep, x);
      assert xs == [xs[0]] + xs[1..];
      assert multiset(xs) == multiset([xs[0]]) + multiset(xs[1..]);
    }
  }

  /**
   * `[var for var in required if os.getenv(var) is None]`: the required names that
   * are not set at all. A variable set to the empty string counts as present.
   */
  function AbsentVars(required: seq<string>, env: Env): (r: seq<string>)
    ensures IsSubsequence(r, required)
    ensures forall v :: v in r <==> v in required && v !in env
    ensures r == [] <==> forall v :: v in required ==> v in env
  {
    var r := Filter(required, (v: string) => v !in env);
    assert r != [] ==> r[0] in r;
    r
  }

  /**
   * `[var for var in required if not os.getenv(var)]`: the required names that are
   * not set or are set to the empty string.
   */
  function UnsetOrEmptyVars(required: seq<string>, env: Env): (r: seq<string>)
    ensures IsSubsequence(r, required)
    ensures forall v :: v in r <==> v in required && (v !in env || env[v] == "")
    ensures r == [] <==> forall v :: v in required ==> v in env && env[v] != ""
  {
    var r := Filter(required, (v: string) => v !in env || env[v] == "");
    assert r != [] ==> r[0] in r;
    r
  }

  /** The names both `_load_env_variables` methods report: required, in order, and not set at all. */
  function AstraMissingVars(env: Env): (r: seq<string>)
    ensures IsSubsequence(r, ASTRA_REQUIRED_VARS)
    ensures forall v :: v in r <==> v in ASTRA_REQUIRED_VARS && v !in env
    ensures r == [] <==> GOOGLE_API_KEY in env && ASTRA_DB_API_ENDPOINT in env
                         && ASTRA_DB_APPLICATION_TOKEN in env && ASTRA_DB_KEYSPACE in env
  {
    AbsentVars(ASTRA_REQUIRED_VARS, env)
  }

  /** `if missing_vars: raise EnvironmentError(...)`: raises exactly when the list is non-empty. */
  function RaiseIfMissing(missing: seq<string>): (o: Outcome<EnvError>)
    ensures o.Pass? <==> |missing| == 0
    ensures o.Fail? ==> o.error.names == missing
  {
    if missing != [] then Fail(MissingEnvironmentVariables(missing)) else Pass
  }

  /** Filtering by a test that implies another keeps a subsequence of what the other keeps. */
  lemma {:induction false} FilterMonotone(xs: seq<string>, p: string -> bool, q: string -> bool)
    requires forall x :: p(x) ==> q(x)
    ensures IsSubsequence(Filter(xs, p), Filter(xs, q))
  {
    if xs != [] {
      FilterMonotone(xs[1..], p, q);
      var fp, fq := Filter(xs[1..], p), Filter(xs[1..], q);
      if p(xs[0]) {
        assert Filter(xs, p) == [xs[0]] + fp && Filter(xs, q) == [xs[0]] + fq;
        assert ([xs[0]] + fp)[1..] == fp && ([xs[0]] + fq)[1..] == fq;
      } else if q(xs[0]) {
        assert Filter(xs, q) == [xs[0]] + fq;
        assert ([xs[0]] + fq)[1..] == fq;
      }
    }
  }

  /**
   * The ModelLoader rule is the stricter one: every name the absence rule reports
   * is also reported by the absent-or-empty rule, in the same relative order.
   */
  lemma AbsentIsSubsequenceOfUnsetOrEmpty(required: seq<string>, env: Env)
    ensures IsSubsequence(AbsentVars(required, env), UnsetOrEmptyVars(required, env))
  {
    FilterMonotone(required, (v: string) => v !in env, (v: string) => v !in env || env[v] == "");
  }

  /** A name bound to "" passes the absence rule and fails the absent-or-empty rule. */
  lemma EmptyValueSplitsTheRules(required: seq<string>, env: Env, name: string)
    requires name in required && name in env && env[name] == ""
    ensures name !in AbsentVars(required, env)
    ensures name in UnsetOrEmptyVars(required, env)
    ensures RaiseIfMissing(UnsetOrEmptyVars(required, env)).Fail?
  {
  }
}
