/**
 * The environment of the Redis container (and of the exporter sidecar): a fixed list
 * of variables, optional ones for the password and persistence, any extra variables,
 * and then a stable sort by name.
 *
 * Go's `sort.SliceStable` is specified by `StableSort`, an insertion sort that puts
 * each element after every element whose name is not greater; `SortByName` computes
 * it with a loop. The lemmas show the result is ordered by name, a permutation of its
 * input, and stable: for every name, the variables carrying it keep their order.
 */
module EnvVars {
  import opened Wrappers
  import opened K8s
  import opened Strings

  /** The etcd address every container is given. */
  const EtcdAddr := "192.168.58.201:2379,192.168.58.201:2379"
  /** The address the exporter scrapes. */
  const RedisHost := "redis://localhost:6379"

  // ---------------------------------------------------------------------------
  // Ordering by name.
  // ---------------------------------------------------------------------------

  predicate SortedByName(s: seq<EnvVar>) {
    forall i, j :: 0 <= i < j < |s| ==> LexLeq(s[i].name, s[j].name)
  }

  /** The variables called `k`, in their order in `s`. */
  function WithName(s: seq<EnvVar>, k: string): seq<EnvVar>
    decreases |s|
  {
    if |s| == 0 then [] else (if s[0].name == k then [s[0]] else []) + WithName(s[1..], k)
  }

  lemma {:induction false} WithNameAppend(a: seq<EnvVar>, b: seq<EnvVar>, k: string)
    ensures WithName(a + b, k) == WithName(a, k) + WithName(b, k)
    decreases |a|
  {
    if |a| > 0 {
      assert (a + b)[1..] == a[1..] + b;
      WithNameAppend(a[1..], b, k);
    } else {
      assert a + b == b;
    }
  }

  /** Insert `x` after every element whose name is not greater than its own. */
  function Insert(s: seq<EnvVar>, x: EnvVar): (r: seq<EnvVar>)
    ensures |r| == |s| + 1
    decreases |s|
  {
    if |s| == 0 then [x]
    else if LexLess(x.name, s[0].name) then [x] + s
    else [s[0]] + Insert(s[1..], x)
  }

  /** The stable sort by name, one insertion per element, left to right. */
  function StableSort(s: seq<EnvVar>): (r: seq<EnvVar>)
    ensures |r| == |s|
    decreases |s|
  {
    if |s| == 0 then [] else Insert(StableSort(s[..|s| - 1]), s[|s| - 1])
  }

  lemma {:induction false} InsertPermutes(s: seq<EnvVar>, x: EnvVar)
    ensures multiset(Insert(s, x)) == multiset(s) + multiset{x}
    decreases |s|
  {
    if |s| > 0 && !LexLess(x.name, s[0].name) {
      InsertPermutes(s[1..], x);
      assert s == [s[0]] + s[1..];
    }
  }

  /** A name below the first of a sorted list is below all of them. */
  lemma BelowSorted(s: seq<EnvVar>, name: string)
    requires SortedByName(s) && |s| > 0 && LexLess(name, s[0].name)
    ensures forall j :: 0 <= j < |s| ==> LexLess(name, s[j].name)
  {
    forall j | 0 <= j < |s|
      ensures LexLess(name, s[j].name)
    {
      if j > 0 {
        LexLessTotal(s[0].name, s[j].name);
        if s[0].name != s[j].name {
          LexLessTransitive(name, s[0].name, s[j].name);
        }
      }
    }
  }

  lemma {:induction false} InsertSorted(s: seq<EnvVar>, x: EnvVar)
    requires SortedByName(s)
    ensures SortedByName(Insert(s, x))
    decreases |s|
  {
    var r := Insert(s, x);
    if |s| == 0 {
    } else if LexLess(x.name, s[0].name) {
      BelowSorted(s, x.name);
      forall i, j | 0 <= i < j < |r|
        ensures LexLeq(r[i].name, r[j].name)
      {
        if i == 0 {
          LexLessAsymmetric(x.name, s[j - 1].name);
        }
      }
    } else {
      var t := s[1..];
      InsertSorted(t, x);
      InsertPermutes(t, x);
      assert LexLeq(s[0].name, x.name);
      forall i, j | 0 <= i < j < |r|
        ensures LexLeq(r[i].name, r[j].name)
      {
        if i == 0 {
          var e := r[j];
          assert e in multiset(Insert(t, x));
          assert e in multiset(t) || e == x;
          if e != x {
            var k :| 0 <= k < |t| && t[k] == e;
            assert s[k + 1] == e;
          }
        }
      }
    }
  }

  /** The inserted element lands after every element carrying its name. */
  lemma {:induction false} InsertStable(s: seq<EnvVar>, x: EnvVar, k: string)
    requires SortedByName(s)
    ensures WithName(Insert(s, x), k) == WithName(s, k) + (if x.name == k then [x] else [])
    decreases |s|
  {
    if |s| == 0 {
      assert WithName([x], k) == (if x.name == k then [x] else []) + WithName([], k);
    } else if LexLess(x.name, s[0].name) {
      assert ([x] + s)[1..] == s;
      assert WithName([x] + s, k) == (if x.name == k then [x] else []) + WithName(s, k);
      if x.name == k {
        BelowSorted(s, x.name);
        NoneNamed(s, k);
      }
    } else {
      var t := s[1..];
      assert SortedByName(t) by {
        forall i, j | 0 <= i < j < |t| ensures LexLeq(t[i].name, t[j].name) {
          assert t[i] == s[i + 1] && t[j] == s[j + 1];
        }
      }
      InsertStable(t, x, k);
      var r := [s[0]] + Insert(t, x);
      assert Insert(s, x) == r;
      assert r[1..] == Insert(t, x);
      assert WithName(r, k) == (if s[0].name == k then [s[0]] else []) + WithName(Insert(t, x), k);
      assert WithName(s, k) == (if s[0].name == k then [s[0]] else []) + WithName(t, k);
    }
  }

  lemma {:induction false} NoneNamed(s: seq<EnvVar>, k: string)
    requires forall j :: 0 <= j < |s| ==> LexLess(k, s[j].name)
    ensures WithName(s, k) == []
    decreases |s|
  {
    if |s| > 0 {
      LexLessIrreflexive(k);
      NoneNamed(s[1..], k);
    }
  }

  lemma {:induction false} StableSortPermutes(s: seq<EnvVar>)
    ensures multiset(StableSort(s)) == multiset(s)
    decreases |s|
  {
    if |s| > 0 {
      var init := s[..|s| - 1];
      StableSortPermutes(init);
      InsertPermutes(StableSort(init), s[|s| - 1]);
      assert s == init + [s[|s| - 1]];
    }
  }

  lemma {:induction false} StableSortSorted(s: seq<EnvVar>)
    ensures SortedByName(StableSort(s))
    decreases |s|
  {
    if |s| > 0 {
      StableSortSorted(s[..|s| - 1]);
      InsertSorted(StableSort(s[..|s| - 1]), s[|s| - 1]);
    }
  }

  lemma {:induction false} StableSortStable(s: seq<EnvVar>, k: string)
    ensures WithName(StableSort(s), k) == WithName(s, k)
    decreases |s|
  {
    if |s| > 0 {
      var init := s[..|s| - 1];
      var x := s[|s| - 1];
      StableSortStable(init, k);
      StableSortSorted(init);
      InsertStable(StableSort(init), x, k);
      assert s == init + [x];
      WithNameAppend(init, [x], k);
      assert WithName([x], k) == (if x.name == k then [x] else []) + WithName([], k);
    }
  }

  /**
   * `StableSort` is what `sort.SliceStable` by name promises: ordered by name, a
   * permutation of its input, and stable for every name.
   */
  lemma StableSortCorrect(s: seq<EnvVar>)
    ensures SortedByName(StableSort(s))
    ensures multiset(StableSort(s)) == multiset(s)
    ensures forall k :: WithName(StableSort(s), k) == WithName(s, k)
  {
    StableSortSorted(s);
    StableSortPermutes(s);
    forall k ensures WithName(StableSort(s), k) == WithName(s, k) {
      StableSortStable(s, k);
    }
  }

  /** `sort.SliceStable(envVars, by name)`, one insertion per element. */
  method SortByName(envVars: seq<EnvVar>) returns (sorted: seq<EnvVar>)
    ensures sorted == StableSort(envVars)
    ensures SortedByName(sorted)
    ensures multiset(sorted) == multiset(envVars)
    ensures forall k :: WithName(sorted, k) == WithName(envVars, k)
  {
    sorted := [];
    for i := 0 to |envVars|
      invariant sorted == StableSort(envVars[..i])
    {
      assert envVars[..i + 1][..i] == envVars[..i];
      sorted := Insert(sorted, envVars[i]);
    }
    assert envVars[..|envVars|] == envVars;
    StableSortCorrect(envVars);
  }

  // ---------------------------------------------------------------------------
  // The variables.
  // ---------------------------------------------------------------------------

  const ServerMode := "SERVER_MODE"
  const SetupMode := "SETUP_MODE"
  const EtcdAddrName := "ETCD_ADDR"
  const RedisAddrName := "REDIS_ADDR"
  const RedisPassword := "REDIS_PASSWORD"
  const PersistenceEnabled := "PERSISTENCE_ENABLED"

  /** The variables every container gets, in the order they are appended. */
  function FixedVars(role: string): seq<EnvVar> {
    [EnvVar(ServerMode, role, None), EnvVar(SetupMode, role, None),
     EnvVar(EtcdAddrName, EtcdAddr, None), EnvVar(RedisAddrName, RedisHost, None)]
  }

  /** The password variable: a reference to the key of a secret. */
  function PasswordVar(secretName: string, secretKey: string): EnvVar {
    EnvVar(RedisPassword, "", Some(SecretKeyRef(secretName, secretKey)))
  }

  /** Password and secret pointers as the caller passes them; a set password flag needs both. */
  predicate PasswordArgsOk(enabledPassword: Option<bool>, secretName: Option<string>, secretKey: Option<string>) {
    enabledPassword == Some(true) ==> secretName.Some? && secretKey.Some?
  }

  /** The variables the operator itself contributes, in the order they are appended. */
  function OwnVars(role: string, enabledPassword: Option<bool>, secretName: Option<string>,
                   secretKey: Option<string>, persistenceEnabled: Option<bool>): seq<EnvVar>
    requires PasswordArgsOk(enabledPassword, secretName, secretKey)
  {
    FixedVars(role)
    + (if enabledPassword == Some(true) then [PasswordVar(secretName.value, secretKey.value)] else [])
    + (if persistenceEnabled == Some(true) then [EnvVar(PersistenceEnabled, "true", None)] else [])
  }

  /** The one-element filter. */
  function Named(x: EnvVar, k: string): seq<EnvVar> {
    if x.name == k then [x] else []
  }

  lemma WithNameOne(x: EnvVar, k: string)
    ensures WithName([x], k) == Named(x, k)
  {
    assert WithName([x], k) == Named(x, k) + WithName([], k);
  }

  lemma WithNameFour(s: seq<EnvVar>, k: string)
    requires |s| == 4
    ensures WithName(s, k) == Named(s[0], k) + Named(s[1], k) + Named(s[2], k) + Named(s[3], k)
  {
    assert s == [s[0]] + [s[1]] + [s[2]] + [s[3]];
    WithNameAppend([s[0]] + [s[1]] + [s[2]], [s[3]], k);
    WithNameAppend([s[0]] + [s[1]], [s[2]], k);
    WithNameAppend([s[0]], [s[1]], k);
    WithNameOne(s[0], k);
    WithNameOne(s[1], k);
    WithNameOne(s[2], k);
    WithNameOne(s[3], k);
  }

  /** The variables of one name, as a list of at most one element. */
  lemma WithNameOptional(s: seq<EnvVar>, k: string)
    requires |s| <= 1
    ensures WithName(s, k) == if |s| == 1 then Named(s[0], k) else []
  {
    if |s| == 1 {
      assert s == [s[0]];
      WithNameOne(s[0], k);
    }
  }

  /** The six names are pairwise distinct. */
  lemma NamesDistinct()
    ensures ServerMode != SetupMode && ServerMode != EtcdAddrName && ServerMode != RedisAddrName
    ensures SetupMode != EtcdAddrName && SetupMode != RedisAddrName && EtcdAddrName != RedisAddrName
    ensures RedisPassword != ServerMode && RedisPassword != SetupMode && RedisPassword != EtcdAddrName
    ensures RedisPassword != RedisAddrName && RedisPassword != PersistenceEnabled
    ensures PersistenceEnabled != ServerMode && PersistenceEnabled != SetupMode
    ensures PersistenceEnabled != EtcdAddrName && PersistenceEnabled != RedisAddrName
  {
    assert ServerMode[2] != SetupMode[2] && ServerMode[0] != EtcdAddrName[0] && ServerMode[0] != RedisAddrName[0];
    assert SetupMode[0] != EtcdAddrName[0] && SetupMode[0] != RedisAddrName[0] && EtcdAddrName[0] != RedisAddrName[0];
    assert RedisPassword[0] != ServerMode[0] && RedisPassword[0] != SetupMode[0] && RedisPassword[0] != EtcdAddrName[0];
    assert RedisPassword[6] != RedisAddrName[6] && RedisPassword[0] != PersistenceEnabled[0];
    assert PersistenceEnabled[0] != ServerMode[0] && PersistenceEnabled[0] != SetupMode[0];
    assert PersistenceEnabled[0] != EtcdAddrName[0] && PersistenceEnabled[0] != RedisAddrName[0];
  }

  /**
   * What the operator contributes under each name: exactly one variable for each of
   * the four fixed names (the role twice, the etcd address, the exporter address), the
   * secret reference under `REDIS_PASSWORD` exactly when the password is enabled,
   * `PERSISTENCE_ENABLED=true` exactly when persistence is on, and nothing else.
   */
  lemma OwnVarsByName(role: string, enabledPassword: Option<bool>, secretName: Option<string>,
                      secretKey: Option<string>, persistenceEnabled: Option<bool>, k: string)
    requires PasswordArgsOk(enabledPassword, secretName, secretKey)
    ensures var own := OwnVars(role, enabledPassword, secretName, secretKey, persistenceEnabled);
      WithName(own, k) ==
        if k == ServerMode then [EnvVar(ServerMode, role, None)]
        else if k == SetupMode then [EnvVar(SetupMode, role, None)]
        else if k == EtcdAddrName then [EnvVar(EtcdAddrName, EtcdAddr, None)]
        else if k == RedisAddrName then [EnvVar(RedisAddrName, RedisHost, None)]
        else if k == RedisPassword then
          (if enabledPassword == Some(true) then [PasswordVar(secretName.value, secretKey.value)] else [])
        else if k == PersistenceEnabled then
          (if persistenceEnabled == Some(true) then [EnvVar(PersistenceEnabled, "true", None)] else [])
        else []
  {
    var fixed := FixedVars(role);
    var pw := if enabledPassword == Some(true) then [PasswordVar(secretName.value, secretKey.value)] else [];
    var pe := if persistenceEnabled == Some(true) then [EnvVar(PersistenceEnabled, "true", None)] else [];
    WithNameAppend(fixed + pw, pe, k);
    WithNameAppend(fixed, pw, k);
    WithNameFour(fixed, k);
    WithNameOptional(pw, k);
    WithNameOptional(pe, k);
    NamesDistinct();
  }

  /** Sorting the concatenation of two lists keeps, under every name, the first list's variables before the second's. */
  lemma SortedSplitsByName(a: seq<EnvVar>, b: seq<EnvVar>)
    ensures forall k :: WithName(StableSort(a + b), k) == WithName(a, k) + WithName(b, k)
  {
    forall k
      ensures WithName(StableSort(a + b), k) == WithName(a, k) + WithName(b, k)
    {
      StableSortStable(a + b, k);
      WithNameAppend(a, b, k);
    }
  }

  /** The list before sorting: the operator's variables, then the extra ones. */
  function Unsorted(role: string, enabledPassword: Option<bool>, secretName: Option<string>,
                    secretKey: Option<string>, persistenceEnabled: Option<bool>,
                    extraEnv: Option<seq<EnvVar>>): seq<EnvVar>
    requires PasswordArgsOk(enabledPassword, secretName, secretKey)
  {
    OwnVars(role, enabledPassword, secretName, secretKey, persistenceEnabled) + extraEnv.GetOr([])
  }

  /**
   * `getEnvironmentVariables`: append the variables, then sort. The result is ordered
   * by name, and under every name it holds the operator's own variable of that name
   * (see `OwnVarsByName`) followed by the extra variables of that name in their given order.
   */
  method GetEnvironmentVariables(role: string, enabledPassword: Option<bool>, secretName: Option<string>,
                                 secretKey: Option<string>, persistenceEnabled: Option<bool>,
                                 extraEnv: Option<seq<EnvVar>>)
    returns (envVars: seq<EnvVar>)
    requires PasswordArgsOk(enabledPassword, secretName, secretKey)
    ensures envVars == StableSort(Unsorted(role, enabledPassword, secretName, secretKey, persistenceEnabled, extraEnv))
    ensures SortedByName(envVars)
    ensures |envVars| == 4 + (if enabledPassword == Some(true) then 1 else 0)
                           + (if persistenceEnabled == Some(true) then 1 else 0) + |extraEnv.GetOr([])|
    ensures forall k :: (WithName(envVars, k)
      == WithName(OwnVars(role, enabledPassword, secretName, secretKey, persistenceEnabled), k)
         + WithName(extraEnv.GetOr([]), k))
  {
    envVars := AppendEnvVars(role, enabledPassword, secretName, secretKey, persistenceEnabled, extraEnv);
    envVars := SortByName(envVars);
    SortedSplitsByName(OwnVars(role, enabledPassword, secretName, secretKey, persistenceEnabled), extraEnv.GetOr([]));
  }

  /** The appending half of `getEnvironmentVariables`. */
  method AppendEnvVars(role: string, enabledPassword: Option<bool>, secretName: Option<string>,
                       secretKey: Option<string>, persistenceEnabled: Option<bool>,
                       extraEnv: Option<seq<EnvVar>>)
    returns (envVars: seq<EnvVar>)
    requires PasswordArgsOk(enabledPassword, secretName, secretKey)
    ensures envVars == Unsorted(role, enabledPassword, secretName, secretKey, persistenceEnabled, extraEnv)
  {
    ghost var pw := if enabledPassword == Some(true) then [PasswordVar(secretName.value, secretKey.value)] else [];
    envVars := [EnvVar(ServerMode, role, None), EnvVar(SetupMode, role, None)];
    envVars := envVars + [EnvVar(EtcdAddrName, EtcdAddr, None)];
    envVars := envVars + [EnvVar(RedisAddrName, RedisHost, None)];
    assert envVars == FixedVars(role);
    if enabledPassword == Some(true) {
      envVars := envVars + [PasswordVar(secretName.value, secretKey.value)];
    }
    assert envVars == FixedVars(role) + pw;
    if persistenceEnabled == Some(true) {
      envVars := envVars + [EnvVar(PersistenceEnabled, "true", None)];
    }
    assert envVars == OwnVars(role, enabledPassword, secretName, secretKey, persistenceEnabled);
    if extraEnv.Some? {
      envVars := envVars + extraEnv.value;
    }
  }
}
