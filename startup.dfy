/**
 * `src/main.py`: the environment check `main` makes before building the bot, the filter that
 * picks which files of `cogs/` are loaded as extensions, and the shutdown loop over the
 * services. The environment is a map from variable name to value (`os.getenv` gives `None` for
 * an absent name); which extensions fail to load and which services fail to close are
 * parameters.
 */
module Startup {
  import opened Base
  import opened Strings

  /** `required_env_vars`, in declaration order. */
  const RequiredEnvVars: seq<string> := [
    "DISCORD_TOKEN", "SHOPIFY_ADMIN_API_TOKEN", "SHOPIFY_SHOP_NAME",
    "BACKBLAZE_KEY_ID", "BACKBLAZE_APPLICATION_KEY", "BACKBLAZE_BUCKET_NAME",
    "ADMIN_USER_ID", "APPLICATION_ID", "FAL_KEY"
  ]

  /** `not os.getenv(var)`: the variable is unset or empty. */
  predicate Unset(env: map<string, string>, name: string) {
    name !in env || env[name] == []
  }

  /** The elements of `xs` that satisfy `keep`, in their order. */
  function Filter<T(!new)>(xs: seq<T>, keep: T -> bool): (r: seq<T>)
    ensures |r| <= |xs|
  {
    if xs == [] then [] else (if keep(xs[0]) then [xs[0]] else []) + Filter(xs[1..], keep)
  }

  lemma {:induction false} FilterMembers<T(!new)>(xs: seq<T>, keep: T -> bool)
    ensures forall x :: x in Filter(xs, keep) <==> x in xs && keep(x)
    decreases |xs|
  {
    if xs != [] {
      FilterMembers(xs[1..], keep);
      assert xs == [xs[0]] + xs[1..];
    }
  }

  /** `a` is `b` with some elements left out, the others in their order. */
  predicate Subsequence<T(==)>(a: seq<T>, b: seq<T>)
    decreases |b|
  {
    if a == [] then true
    else if b == [] then false
    else if a[0] == b[0] then Subsequence(a[1..], b[1..])
    else Subsequence(a, b[1..])
  }

  lemma {:induction false} FilterSubsequence<T(!new)>(xs: seq<T>, keep: T -> bool)
    ensures Subsequence(Filter(xs, keep), xs)
    decreases |xs|
  {
    if xs != [] {
      FilterSubsequence(xs[1..], keep);
      var rest := Filter(xs[1..], keep);
      if keep(xs[0]) {
        assert Filter(xs, keep) == [xs[0]] + rest;
        assert ([xs[0]] + rest)[1..] == rest;
      } else {
        assert Filter(xs, keep) == rest;
        SubsequenceSkip(rest, xs);
      }
    }
  }

  /** Leaving out the first element of `b` keeps a subsequence of its tail a subsequence of `b`. */
  lemma {:induction false} SubsequenceSkip<T>(a: seq<T>, b: seq<T>)
    requires b != [] && Subsequence(a, b[1..])
    ensures Subsequence(a, b)
    decreases |b|, 0
  {
    if a != [] && a[0] == b[0] {
      SubsequenceDrop(a, b[1..]);
    }
  }

  /** Dropping the head of a subsequence keeps a subsequence. */
  lemma {:induction false} SubsequenceDrop<T>(a: seq<T>, b: seq<T>)
    requires a != [] && Subsequence(a, b)
    ensures Subsequence(a[1..], b)
    decreases |b|, 1
  {
    if a[0] == b[0] {
      SubsequenceSkip(a[1..], b);
    } else {
      SubsequenceDrop(a, b[1..]);
      SubsequenceSkip(a[1..], b);
    }
  }

  lemma {:induction false} FilterNone<T(!new)>(xs: seq<T>, keep: T -> bool)
    requires forall x :: x in xs ==> !keep(x)
    ensures Filter(xs, keep) == []
    decreases |xs|
  {
    if xs != [] {
      assert xs[0] in xs;
      FilterNone(xs[1..], keep);
    }
  }

  lemma {:induction false} FilterAll<T(!new)>(xs: seq<T>, keep: T -> bool)
    requires forall x :: x in xs ==> keep(x)
    ensures Filter(xs, keep) == xs
    decreases |xs|
  {
    if xs != [] {
      assert xs[0] in xs;
      FilterAll(xs[1..], keep);
      assert [xs[0]] + xs[1..] == xs;
    }
  }

  /** `missing_vars`. */
  function MissingVars(env: map<string, string>): (missing: seq<string>)
    ensures forall v :: v in missing <==> v in RequiredEnvVars && Unset(env, v)
    ensures Subsequence(missing, RequiredEnvVars)
  {
    FilterSubsequence(RequiredEnvVars, v => Unset(env, v));
    FilterMembers(RequiredEnvVars, v => Unset(env, v));
    Filter(RequiredEnvVars, v => Unset(env, v))
  }

  /** Why `main` stops before building the bot: the `EnvironmentError` naming what is missing, or
      the `ValueError` of `int(os.getenv('APPLICATION_ID'))`. */
  datatype StartupError = MissingEnvironment(message: string) | BadApplicationId

  /** The check in `main`; on success, the application id the bot is built with. */
  function CheckEnvironment(env: map<string, string>): (r: Result<int, StartupError>)
    ensures r.Err? && r.error.MissingEnvironment? <==> MissingVars(env) != []
    ensures r.Err? && r.error.MissingEnvironment? ==>
              r.error.message == "Missing required environment variables: " + Join(MissingVars(env), ", ")
    ensures r.Ok? ==> forall v :: v in RequiredEnvVars ==> v in env && env[v] != []
    ensures r.Ok? ==> ParseInt(env["APPLICATION_ID"]) == Some(r.value)
  {
    var missing := MissingVars(env);
    if missing != [] then Err(MissingEnvironment("Missing required environment variables: " + Join(missing, ", ")))
    else
      NoneMissing(env);
      assert RequiredEnvVars[7] == "APPLICATION_ID";
      match ParseInt(env["APPLICATION_ID"])
      case None => Err(BadApplicationId)
      case Some(id) => Ok(id)
  }

  lemma NoneMissing(env: map<string, string>)
    requires MissingVars(env) == []
    ensures forall v :: v in RequiredEnvVars ==> v in env && env[v] != []
  {
    forall v | v in RequiredEnvVars ensures v in env && env[v] != [] {
      if Unset(env, v) {
        assert v in MissingVars(env);
      }
    }
  }

  /** A full environment with a numeric application id passes the check. */
  lemma CompleteEnvironmentStarts(env: map<string, string>, id: int)
    requires forall v :: v in RequiredEnvVars ==> v in env && env[v] != []
    requires env["APPLICATION_ID"] == IntToString(id)
    ensures CheckEnvironment(env) == Ok(id)
  {
    FilterNone(RequiredEnvVars, v => Unset(env, v));
    IntToStringRoundTrip(id);
  }

  /** With nothing set, every variable is reported, in declaration order. */
  lemma EmptyEnvironmentNamesAll()
    ensures MissingVars(map[]) == RequiredEnvVars
  {
    FilterAll(RequiredEnvVars, v => Unset(map[], v));
  }

  // ---------------------------------------------------------------------------
  // load_all_cogs
  // ---------------------------------------------------------------------------

  /** `filename.endswith('.py') and not filename.startswith('_')`. */
  predicate IsCogFile(f: string) { EndsWith(f, ".py") && !StartsWith(f, "_") }

  /** `f'cogs.{filename[:-3]}'`. */
  function CogModule(f: string): (m: string)
    requires IsCogFile(f)
    ensures StartsWith(m, "cogs.") && m[5..] + ".py" == f
  {
    var name := f[..|f| - 3];
    assert name + ".py" == f;
    var m := "cogs." + name;
    assert m[..5] == "cogs." && m[5..] == name;
    m
  }

  /** The modules `load_all_cogs` tries, in directory order. */
  function CogModules(files: seq<string>): (ms: seq<string>)
    ensures |ms| <= |files|
  {
    if files == [] then []
    else (if IsCogFile(files[0]) then [CogModule(files[0])] else []) + CogModules(files[1..])
  }

  lemma {:induction false} CogModulesAppend(files: seq<string>, f: string)
    ensures CogModules(files + [f]) == CogModules(files) + (if IsCogFile(f) then [CogModule(f)] else [])
    decreases |files|
  {
    var last := if IsCogFile(f) then [CogModule(f)] else [];
    if files == [] {
      assert [f][1..] == [];
      assert CogModules([f]) == last + CogModules([]);
    } else {
      var head := if IsCogFile(files[0]) then [CogModule(files[0])] else [];
      assert (files + [f])[0] == files[0];
      assert (files + [f])[1..] == files[1..] + [f];
      CogModulesAppend(files[1..], f);
      assert CogModules(files + [f]) == head + (CogModules(files[1..]) + last);
      assert head + (CogModules(files[1..]) + last) == (head + CogModules(files[1..])) + last;
    }
  }

  /** Every eligible file is tried and nothing else is; each module comes from a file's name. */
  lemma {:induction false} CogModulesExactly(files: seq<string>, f: string)
    ensures IsCogFile(f) && f in files ==> CogModule(f) in CogModules(files)
    ensures forall m :: m in CogModules(files) ==> exists g :: g in files && IsCogFile(g) && CogModule(g) == m
    decreases |files|
  {
    if files != [] {
      CogModulesExactly(files[1..], f);
    }
  }

  /** `load_all_cogs`: a module whose loading raises is logged and the loop goes on. Returns the
      modules tried and those loaded. */
  method LoadAllCogs(files: seq<string>, failing: set<string>) returns (tried: seq<string>, loaded: seq<string>)
    ensures tried == CogModules(files)
    ensures loaded == Filter(tried, m => m !in failing)
  {
    tried, loaded := [], [];
    var i := 0;
    while i < |files|
      invariant 0 <= i <= |files|
      invariant tried == CogModules(files[..i])
      invariant loaded == Filter(tried, m => m !in failing)
    {
      var f := files[i];
      assert files[..i + 1] == files[..i] + [f];
      CogModulesAppend(files[..i], f);
      if IsCogFile(f) {
        var m := CogModule(f);
        FilterAppend(tried, m, m => m !in failing);
        tried := tried + [m];
        if m !in failing {
          loaded := loaded + [m];
        }
      }
      i := i + 1;
    }
    assert files[..|files|] == files;
  }

  lemma {:induction false} FilterAppend<T(!new)>(xs: seq<T>, x: T, keep: T -> bool)
    ensures Filter(xs + [x], keep) == Filter(xs, keep) + (if keep(x) then [x] else [])
    decreases |xs|
  {
    var last := if keep(x) then [x] else [];
    if xs == [] {
      assert [x][1..] == [];
      assert Filter([x], keep) == last + Filter([], keep);
    } else {
      var head := if keep(xs[0]) then [xs[0]] else [];
      assert (xs + [x])[0] == xs[0];
      assert (xs + [x])[1..] == xs[1..] + [x];
      FilterAppend(xs[1..], x, keep);
      assert Filter(xs + [x], keep) == head + (Filter(xs[1..], keep) + last);
      assert head + (Filter(xs[1..], keep) + last) == (head + Filter(xs[1..], keep)) + last;
    }
  }

  // ---------------------------------------------------------------------------
  // close_services
  // ---------------------------------------------------------------------------

  datatype Service = ProductHandlerService | BackblazeService | CreditService | ShopifyService

  /** `[self.product_handler, self.backblaze_handler, self.credit_system, self.shopify_service]`. */
  const ShutdownOrder: seq<Service> := [ProductHandlerService, BackblazeService, CreditService, ShopifyService]

  /** `close_services`: every service's `close` is awaited in order; one that raises is logged and
      the next is still closed. Returns the services tried and those closed. */
  method CloseServices(failing: set<Service>) returns (tried: seq<Service>, closed: seq<Service>)
    ensures tried == ShutdownOrder
    ensures closed == Filter(ShutdownOrder, s => s !in failing)
    ensures forall s :: s in closed <==> s !in failing
  {
    tried, closed := [], [];
    var i := 0;
    while i < |ShutdownOrder|
      invariant 0 <= i <= |ShutdownOrder|
      invariant tried == ShutdownOrder[..i]
      invariant closed == Filter(tried, s => s !in failing)
    {
      var s := ShutdownOrder[i];
      assert ShutdownOrder[..i + 1] == ShutdownOrder[..i] + [s];
      FilterAppend(tried, s, s => s !in failing);
      tried := tried + [s];
      if s !in failing {
        closed := closed + [s];
      }
      i := i + 1;
    }
    EveryServiceCloses(failing);
  }

  /** Every service is in the shutdown order, so exactly those whose `close` does not raise are closed. */
  lemma EveryServiceCloses(failing: set<Service>)
    ensures forall s :: s in Filter(ShutdownOrder, s => s !in failing) <==> s !in failing
  {
    FilterMembers(ShutdownOrder, s => s !in failing);
    forall s: Service ensures s in ShutdownOrder {
      if s == ProductHandlerService { assert ShutdownOrder[0] == s; }
      else if s == BackblazeService { assert ShutdownOrder[1] == s; }
      else if s == CreditService { assert ShutdownOrder[2] == s; }
      else { assert ShutdownOrder[3] == s; }
    }
  }
}
