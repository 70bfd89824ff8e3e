/**
 * The persisted phase codes of the reconciliation state machine and the two requeue
 * intervals. The status record stores a phase as a plain integer; `FromCode` is the
 * dispatch's reading of it and `Code` the value a handler writes.
 */
module Phases {
  import opened Wrappers

  datatype Phase =
    | OnStart
    | InCheckDelete
    | InProcessDelete
    | InCheckSts
    | InCreateSts
    | InCheckPods
    | InCheckService
    | InCreateService
    | InCheckRedisHA
    | InCreateRedisHA
    | InFixRedisServer
    | InForceRedoPod
    | InCheckNormal
    | InSetEtcdCrt

  function Code(p: Phase): (c: int)
    ensures 0 <= c <= 13
  {
    match p
    case OnStart => 0
    case InCheckDelete => 1
    case InProcessDelete => 2
    case InCheckSts => 3
    case InCreateSts => 4
    case InCheckPods => 5
    case InCheckService => 6
    case InCreateService => 7
    case InCheckRedisHA => 8
    case InCreateRedisHA => 9
    case InFixRedisServer => 10
    case InForceRedoPod => 11
    case InCheckNormal => 12
    case InSetEtcdCrt => 13
  }

  /** The phase a stored code names; `None` for a code the dispatch does not know. */
  function FromCode(c: int): (p: Option<Phase>)
    ensures p.Some? <==> 0 <= c <= 13
    ensures p.Some? ==> Code(p.value) == c
  {
    if c == 0 then Some(OnStart)
    else if c == 1 then Some(InCheckDelete)
    else if c == 2 then Some(InProcessDelete)
    else if c == 3 then Some(InCheckSts)
    else if c == 4 then Some(InCreateSts)
    else if c == 5 then Some(InCheckPods)
    else if c == 6 then Some(InCheckService)
    else if c == 7 then Some(InCreateService)
    else if c == 8 then Some(InCheckRedisHA)
    else if c == 9 then Some(InCreateRedisHA)
    else if c == 10 then Some(InFixRedisServer)
    else if c == 11 then Some(InForceRedoPod)
    else if c == 12 then Some(InCheckNormal)
    else if c == 13 then Some(InSetEtcdCrt)
    else None
  }

  /** Reading back a written code yields the phase that was written. */
  lemma CodeRoundTrip(p: Phase)
    ensures FromCode(Code(p)) == Some(p)
  {
  }

  /** The fourteen codes are pairwise distinct. */
  lemma CodesDistinct(p: Phase, q: Phase)
    requires p != q
    ensures Code(p) != Code(q)
  {
    CodeRoundTrip(p);
    CodeRoundTrip(q);
  }

  /** `TIME_INTERVAL_NORMAL`, in seconds: the steady-state and not-found requeue. */
  const NormalInterval: int := 10

  /** `TIME_INTERVAL_EVENT`, in seconds: the requeue after a failure. */
  const EventInterval: int := 20
}
