/**
 * The federated-learning server (backend/federated/server.py): a buffer of
 * pending client updates keyed by client id, a quorum of three clients that
 * triggers aggregation inside the registering call, a round counter, the
 * training history and the save-every-ten-rounds cadence.
 *
 * The server's whole state is captured by the value `State`; the functions
 * `Register` and `Aggregate` say what one call does to it and what it
 * returns, and the class `FederatedServer` holds the same state in fields
 * and is proved to follow those functions step by step. The global torch
 * model is represented by its state dict; `load_state_dict` succeeds exactly
 * when the new dict has the model's shape.
 */
module Server {
  import opened Common
  import opened Aggregation

  /** `config['min_clients']`. */
  const MinClients: nat := 3
  /** `config['save_model_frequency']`. */
  const SaveModelFrequency: nat := 10
  /** The method name that selects accuracy weighting; any other name means FedAvg. */
  const WeightedAvgMethod: string := "weighted_avg"
  /** `config['aggregation_method']` at start-up. */
  const DefaultMethod: string := "fedavg"

  /** The metrics dict a client sends; each entry may be absent. */
  datatype ClientMetrics = ClientMetrics(accuracy: Option<seq<real>>, loss: Option<seq<real>>, samplesUsed: Option<int>)

  /** One pending update (the timestamp is not modelled). */
  datatype ClientUpdate = ClientUpdate(weights: ParamMap, metrics: ClientMetrics, samples: int)

  /** The exceptions an aggregation round can end in. */
  datatype ServerError =
    | EmptyMetricList      // `[-1]` on an empty accuracy or loss list
    | ZeroTotalSamples     // `update['samples'] / total_samples` with a zero total
    | IncompatibleWeights  // clients whose tensors cannot be added together
    | StateDictMismatch    // `load_state_dict` refusing the averaged dict

  /** The dict `_calculate_aggregation_metrics` returns. */
  datatype RoundMetrics = RoundMetrics(
    round: nat, clientCount: nat, totalSamples: int,
    avgAccuracy: real, avgLoss: real, clientIds: seq<string>)

  /** What `register_client_update` and `aggregate_updates` return. */
  datatype Outcome =
    | Waiting(clientsReceived: nat, clientsNeeded: nat)
    | InsufficientClients
    | RoundComplete(round: nat, clientsParticipated: nat, strategy: string, metrics: RoundMetrics)
    | RoundFailed(error: ServerError)

  /** `training_history` without its timestamps. */
  datatype History = History(rounds: seq<nat>, accuracies: seq<real>, participation: seq<nat>)

  /** The server's state. The pending dict `client_updates` has the keys
      `order`, in insertion order, each mapped to its record by `pending`
      (entries of `pending` outside `order` are not part of it); `saves` lists
      the rounds at which the model and history were written out. */
  datatype State = State(
    global: ParamMap, order: seq<string>, pending: map<string, ClientUpdate>,
    round: nat, strategy: string, history: History, saves: seq<nat>)

  ghost predicate WellFormed(s: State) {
    (forall i, j :: 0 <= i < j < |s.order| ==> s.order[i] != s.order[j]) &&
    (forall i :: 0 <= i < |s.order| ==> s.order[i] in s.pending) &&
    |s.history.rounds| == |s.history.accuracies| == |s.history.participation|
  }

  /** A fresh server around a model with the given state dict. */
  function Initial(architecture: ParamMap): (s: State)
    ensures WellFormed(s) && s.round == 0 && |s.order| == 0
  {
    State(architecture, [], map[], 0, DefaultMethod, History([], [], []), [])
  }

  // ---------------------------------------------------------------------
  // Registering an update
  // ---------------------------------------------------------------------

  /** The stored record: `samples` defaults to 0 when `samples_used` is absent. */
  function MakeUpdate(weights: ParamMap, metrics: ClientMetrics): (u: ClientUpdate)
    ensures u.weights == weights && u.metrics == metrics
    ensures metrics.samplesUsed.None? ==> u.samples == 0
    ensures metrics.samplesUsed.Some? ==> u.samples == metrics.samplesUsed.value
  {
    ClientUpdate(weights, metrics, metrics.samplesUsed.GetOr(0))
  }

  /** `client_updates[client_id] = ...`: a new id goes to the end, a known id
      keeps its place and gets the new record. */
  function Put(s: State, id: string, u: ClientUpdate): (r: State)
    requires WellFormed(s)
    ensures WellFormed(r)
  {
    s.(order := if id in s.order then s.order else s.order + [id], pending := s.pending[id := u])
  }

  /** `register_client_update`: store the update, then aggregate at once when
      the quorum is reached, else report how many clients are in. */
  function Register(s: State, id: string, weights: ParamMap, metrics: ClientMetrics): (r: (State, Outcome))
    requires WellFormed(s)
    ensures WellFormed(r.0)
  {
    var s1 := Put(s, id, MakeUpdate(weights, metrics));
    if |s1.order| >= MinClients then Aggregate(s1) else (s1, Waiting(|s1.order|, MinClients))
  }

  // ---------------------------------------------------------------------
  // The pending updates, in dict order
  // ---------------------------------------------------------------------

  function Updates(s: State): (us: seq<ClientUpdate>)
    requires WellFormed(s)
    ensures |us| == |s.order|
  {
    seq(|s.order|, i requires 0 <= i < |s.order| => s.pending[s.order[i]])
  }

  function WeightsOf(us: seq<ClientUpdate>): (c: seq<ParamMap>)
    ensures |c| == |us|
  {
    seq(|us|, i requires 0 <= i < |us| => us[i].weights)
  }

  function SamplesOf(us: seq<ClientUpdate>): (c: seq<int>)
    ensures |c| == |us|
  {
    seq(|us|, i requires 0 <= i < |us| => us[i].samples)
  }

  function AccuracyLists(us: seq<ClientUpdate>): (c: seq<Option<seq<real>>>)
    ensures |c| == |us|
  {
    seq(|us|, i requires 0 <= i < |us| => us[i].metrics.accuracy)
  }

  function LossLists(us: seq<ClientUpdate>): (c: seq<Option<seq<real>>>)
    ensures |c| == |us|
  {
    seq(|us|, i requires 0 <= i < |us| => us[i].metrics.loss)
  }

  /** `metrics.get(name, [0])[-1]`: the default list holds a single zero, a
      present but empty list raises IndexError. */
  function LastOrZero(list: Option<seq<real>>): (r: Result<real, ServerError>)
    ensures r.Failure? <==> list.Some? && |list.value| == 0
    ensures r.Failure? ==> r.error == EmptyMetricList
    ensures list.None? ==> r == Success(0.0)
    ensures list.Some? && 0 < |list.value| ==> r == Success(list.value[|list.value| - 1])
  {
    match list
    case None => Success(0.0)
    case Some(values) => if |values| == 0 then Failure(EmptyMetricList) else Success(values[|values| - 1])
  }

  /** `LastOrZero` of every list, in order; the first failure is the result. */
  function Lasts(lists: seq<Option<seq<real>>>): (r: Result<seq<real>, ServerError>)
    ensures r.Success? ==> |r.value| == |lists|
    ensures r.Failure? ==> r.error == EmptyMetricList
  {
    if |lists| == 0 then Success([])
    else
      var n := |lists| - 1;
      match Lasts(lists[..n])
      case Failure(e) => Failure(e)
      case Success(front) =>
        match LastOrZero(lists[n])
        case Failure(e) => Failure(e)
        case Success(x) => Success(front + [x])
  }

  /** `Lasts` succeeds exactly when every list is absent or non-empty, and
      then holds each list's last value (0 for an absent one) in order. */
  lemma {:induction false} LastsPointwise(lists: seq<Option<seq<real>>>)
    ensures Lasts(lists).Success? <==> forall i :: 0 <= i < |lists| ==> LastOrZero(lists[i]).Success?
    ensures Lasts(lists).Success? ==>
      forall i :: 0 <= i < |lists| ==> LastOrZero(lists[i]) == Success(Lasts(lists).value[i])
  {
    if |lists| > 0 {
      var n := |lists| - 1;
      LastsPointwise(lists[..n]);
      assert forall i :: 0 <= i < n ==> lists[..n][i] == lists[i];
    }
  }

  // ---------------------------------------------------------------------
  // The two aggregation rules
  // ---------------------------------------------------------------------

  /** `_fedavg_aggregation`'s weights `samples / total_samples`; with clients
      present a zero total raises ZeroDivisionError. */
  function SampleWeights(samples: seq<int>): (r: Result<seq<real>, ServerError>)
    ensures r.Failure? <==> 0 < |samples| && IntSum(samples) == 0
    ensures r.Success? ==> |r.value| == |samples|
  {
    if |samples| == 0 then Success([])
    else if IntSum(samples) == 0 then Failure(ZeroTotalSamples)
    else Success(FedAvgWeights(samples, |samples|))
  }

  /** `_weighted_average_aggregation`'s weights: accuracy over the total
      accuracy, or 1/n each when the total is zero. */
  function AccuracyWeights(accs: seq<real>): (w: seq<real>)
    requires 0 < |accs|
    ensures |w| == |accs|
  {
    var total := Sum(accs);
    var share := Share(|accs|);
    if total == 0.0 then seq(|accs|, _ => share)
    else seq(|accs|, i requires 0 <= i < |accs| => accs[i] / total)
  }

  lemma {:induction false} SharesMakeOne(n: nat)
    requires 0 < n
    ensures n as real * Share(n) == 1.0
  {
  }

  /** The accuracy weights always sum to one. */
  lemma {:induction false} AccuracyWeightsSumToOne(accs: seq<real>)
    requires 0 < |accs|
    ensures Sum(AccuracyWeights(accs)) == 1.0
  {
    var w := AccuracyWeights(accs);
    if Sum(accs) == 0.0 {
      assert forall i :: 0 <= i < |w| ==> w[i] == Share(|accs|);
      SumConstant(w, Share(|accs|));
      SharesMakeOne(|accs|);
    } else {
      assert forall i :: 0 <= i < |w| ==> w[i] == accs[i] / Sum(accs);
      SumDivided(accs, w, Sum(accs));
    }
  }

  /** Non-negative accuracies give non-negative weights; a zero total gives
      the equal share 1/n to every client. */
  lemma {:induction false} AccuracyWeightsShares(accs: seq<real>)
    requires 0 < |accs|
    ensures (forall i :: 0 <= i < |accs| ==> 0.0 <= accs[i]) ==>
      forall i :: 0 <= i < |accs| ==> 0.0 <= AccuracyWeights(accs)[i]
    ensures Sum(accs) == 0.0 ==> forall i :: 0 <= i < |accs| ==> AccuracyWeights(accs)[i] == Share(|accs|)
  {
    var w := AccuracyWeights(accs);
    if Sum(accs) == 0.0 {
      assert forall i :: 0 <= i < |w| ==> w[i] == Share(|accs|);
    } else if forall i :: 0 <= i < |accs| ==> 0.0 <= accs[i] {
      SumNonNegative(accs);
      forall i | 0 <= i < |accs|
        ensures 0.0 <= w[i]
      {
        assert w[i] == accs[i] / Sum(accs);
        QuotientNonNegative(accs[i], Sum(accs));
      }
    }
  }

  lemma {:induction false} QuotientNonNegative(a: real, t: real)
    requires 0.0 <= a && 0.0 < t
    ensures 0.0 <= a / t
  {
  }

  /** The accumulation loop shared by both rules: every key of every client
      is summed into a tensor started from zeros, so the result holds the
      union of the clients' keys; two clients holding one key at different
      sizes cannot be added. */
  function Combine(clients: seq<ParamMap>, ws: seq<real>): (r: Result<ParamMap, ServerError>)
    requires |ws| == |clients|
    ensures r.Success? <==> Compatible(clients)
    ensures r.Success? ==> r.value == WeightedCombination(clients, ws)
  {
    if Compatible(clients) then Success(WeightedCombination(clients, ws)) else Failure(IncompatibleWeights)
  }

  function FedAvgRule(us: seq<ClientUpdate>): Result<ParamMap, ServerError> {
    match SampleWeights(SamplesOf(us))
    case Failure(e) => Failure(e)
    case Success(ws) => Combine(WeightsOf(us), ws)
  }

  function WeightedAvgRule(us: seq<ClientUpdate>): Result<ParamMap, ServerError>
    requires 0 < |us|
  {
    match Lasts(AccuracyLists(us))
    case Failure(e) => Failure(e)
    case Success(accs) => Combine(WeightsOf(us), AccuracyWeights(accs))
  }

  /** The state dict the round produces: `weighted_avg` weighs by accuracy,
      `fedavg` and every other method name by samples. */
  function NewWeights(s: State): Result<ParamMap, ServerError>
    requires WellFormed(s) && 0 < |s.order|
  {
    if s.strategy == WeightedAvgMethod then WeightedAvgRule(Updates(s)) else FedAvgRule(Updates(s))
  }

  // ---------------------------------------------------------------------
  // A round
  // ---------------------------------------------------------------------

  /** `_calculate_aggregation_metrics` on a non-empty buffer. */
  function MetricsOf(s: State): (r: Result<RoundMetrics, ServerError>)
    requires WellFormed(s) && 0 < |s.order|
    ensures r.Success? ==> r.value.round == s.round && r.value.clientCount == |s.order| && r.value.clientIds == s.order
  {
    var us := Updates(s);
    match Lasts(AccuracyLists(us))
    case Failure(e) => Failure(e)
    case Success(accs) =>
      match Lasts(LossLists(us))
      case Failure(e) => Failure(e)
      case Success(losses) =>
        Success(RoundMetrics(s.round, |us|, IntSum(SamplesOf(us)), Mean(accs), Mean(losses), s.order))
  }

  /** The history appends of `_calculate_aggregation_metrics`. */
  function RecordRound(h: History, m: RoundMetrics): History {
    History(h.rounds + [m.round], h.accuracies + [m.avgAccuracy], h.participation + [m.clientCount])
  }

  /** `aggregate_updates`. Below the quorum nothing changes. Otherwise the
      round is bumped first, then the new weights are computed and loaded. */
  function Aggregate(s: State): (r: (State, Outcome))
    requires WellFormed(s)
    ensures WellFormed(r.0)
  {
    if |s.order| < MinClients then (s, InsufficientClients)
    else
      var bumped := s.(round := s.round + 1);
      Load(bumped, NewWeights(bumped))
  }

  /** What a strict `load_state_dict` has copied by the time it raises: every
      parameter of the model that the dict holds at the same size takes the
      dict's tensor, the others keep theirs. */
  function PartialLoad(global: ParamMap, w: ParamMap): ParamMap {
    map k | k in global :: if k in w && |w[k]| == |global[k]| then w[k] else global[k]
  }

  /** `load_state_dict` of the new weights, then the metrics. An exception
      leaves whatever was already changed: a refused dict (a key missing,
      unexpected or of another size) has already been copied wherever it
      fits. */
  function Load(s: State, w: Result<ParamMap, ServerError>): (r: (State, Outcome))
    requires WellFormed(s) && 0 < |s.order|
    ensures WellFormed(r.0)
  {
    match w
    case Failure(e) => (s, RoundFailed(e))
    case Success(w) =>
      if !SameShape(w, s.global) then (s.(global := PartialLoad(s.global, w)), RoundFailed(StateDictMismatch))
      else
        var loaded := s.(global := w);
        Finish(loaded, MetricsOf(loaded))
  }

  /** Loading never changes the model's architecture. Whether the load then
      succeeds or raises, every parameter the new dict holds at the model's
      size takes the dict's tensor and every other keeps its own; the load
      succeeds exactly when the dict has the model's shape, and then the
      model holds the dict. Everything but the model and the round's
      bookkeeping is as before. */
  lemma {:induction false} LoadCopiesMatching(s: State, w: ParamMap)
    requires WellFormed(s) && 0 < |s.order|
    ensures var g := Load(s, Success(w)).0.global;
      SameShape(g, s.global) &&
      (forall k :: k in s.global && k in w && |w[k]| == |s.global[k]| ==> g[k] == w[k]) &&
      (forall k :: k in s.global && !(k in w && |w[k]| == |s.global[k]|) ==> g[k] == s.global[k])
    ensures Load(s, Success(w)).1 == RoundFailed(StateDictMismatch) <==> !SameShape(w, s.global)
    ensures SameShape(w, s.global) ==> Load(s, Success(w)).0.global == w
    ensures !SameShape(w, s.global) ==> Load(s, Success(w)).0 == s.(global := Load(s, Success(w)).0.global)
  {
    if SameShape(w, s.global) {
      var loaded := s.(global := w);
      match MetricsOf(loaded)
      case Failure(e) =>
      case Success(m) =>
    }
  }

  /** The history append, the save every tenth round and the clearing of the
      buffer, which happen only when the metrics could be computed. */
  function Finish(s: State, m: Result<RoundMetrics, ServerError>): (r: (State, Outcome))
    requires WellFormed(s)
    ensures WellFormed(r.0)
  {
    match m
    case Failure(e) => (s, RoundFailed(e))
    case Success(m) =>
      var saves := if s.round % SaveModelFrequency == 0 then s.saves + [s.round] else s.saves;
      (s.(history := RecordRound(s.history, m), saves := saves, order := [], pending := map[]),
       RoundComplete(s.round, |s.order|, s.strategy, m))
  }

  // ---------------------------------------------------------------------
  // Status
  // ---------------------------------------------------------------------

  datatype ServerStatus = ServerStatus(
    trainingRound: nat, clientsRegistered: nat, minClientsRequired: nat, aggregationMethod: string,
    totalRounds: nat, averageAccuracy: real, averageParticipation: real)

  function AsReals(s: seq<nat>): (r: seq<real>)
    ensures |r| == |s| && forall i :: 0 <= i < |s| ==> r[i] == s[i] as real
  {
    seq(|s|, i requires 0 <= i < |s| => s[i] as real)
  }

  /** `np.mean(xs) if xs else 0`. */
  function MeanOrZero(xs: seq<real>): (m: real)
    ensures |xs| == 0 ==> m == 0.0
    ensures 0 < |xs| ==> MinOf(xs) <= m <= MaxOf(xs)
  {
    if |xs| == 0 then 0.0
    else
      MeanBounds(xs, MinOf(xs), MaxOf(xs));
      Mean(xs)
  }

  /** `get_server_status`: counts and history averages. */
  function Status(s: State): (st: ServerStatus)
    ensures st.trainingRound == s.round && st.clientsRegistered == |s.order|
    ensures st.minClientsRequired == MinClients && st.aggregationMethod == s.strategy
    ensures st.totalRounds == |s.history.rounds|
    ensures 0 < |s.history.accuracies| ==>
      MinOf(s.history.accuracies) <= st.averageAccuracy <= MaxOf(s.history.accuracies)
    ensures |s.history.participation| == 0 ==> st.averageParticipation == 0.0
  {
    ServerStatus(s.round, |s.order|, MinClients, s.strategy, |s.history.rounds|,
                 MeanOrZero(s.history.accuracies), MeanOrZero(AsReals(s.history.participation)))
  }

  // ---------------------------------------------------------------------
  // Properties of a call
  // ---------------------------------------------------------------------

  /** A resubmission overwrites the stored record in place: the number of
      pending clients is unchanged. A new client adds one. */
  lemma {:induction false} ResubmissionKeepsCount(s: State, id: string, u: ClientUpdate)
    requires WellFormed(s)
    ensures Put(s, id, u).pending[id] == u
    ensures id in s.order ==> |Put(s, id, u).order| == |s.order|
    ensures id !in s.order ==> |Put(s, id, u).order| == |s.order| + 1
    ensures forall k :: k in s.pending && k != id ==> Put(s, id, u).pending[k] == s.pending[k]
  {
  }

  /** Below the quorum the call only stores the update and reports the counts. */
  lemma {:induction false} RegisterBelowQuorumWaits(s: State, id: string, weights: ParamMap, metrics: ClientMetrics)
    requires WellFormed(s)
    requires |Put(s, id, MakeUpdate(weights, metrics)).order| < MinClients
    ensures var (s', out) := Register(s, id, weights, metrics);
      out == Waiting(|s'.order|, MinClients) && s'.round == s.round && s'.history == s.history &&
      s'.pending == s.pending[id := MakeUpdate(weights, metrics)] && s'.global == s.global
  {
  }

  /** Reaching the quorum aggregates within the same call, which advances the round. */
  lemma {:induction false} RegisterAtQuorumAggregates(s: State, id: string, weights: ParamMap, metrics: ClientMetrics)
    requires WellFormed(s)
    requires |Put(s, id, MakeUpdate(weights, metrics)).order| >= MinClients
    ensures Register(s, id, weights, metrics) == Aggregate(Put(s, id, MakeUpdate(weights, metrics)))
    ensures Register(s, id, weights, metrics).0.round == s.round + 1
  {
    AggregateAdvancesRound(Put(s, id, MakeUpdate(weights, metrics)));
  }

  /** `aggregate_updates` below the quorum changes nothing. */
  lemma {:induction false} InsufficientClientsChangesNothing(s: State)
    requires WellFormed(s) && |s.order| < MinClients
    ensures Aggregate(s) == (s, InsufficientClients)
  {
  }

  /** With a quorum the round advances by exactly one whether or not the
      aggregation succeeds. */
  lemma {:induction false} AggregateAdvancesRound(s: State)
    requires WellFormed(s) && |s.order| >= MinClients
    ensures Aggregate(s).0.round == s.round + 1
    ensures Aggregate(s).1.RoundComplete? || Aggregate(s).1.RoundFailed?
  {
  }

  /** A successful round empties the buffer, reports how many clients took
      part, loads the new weights, appends one entry to each history list and
      saves exactly when the new round is a multiple of ten. */
  lemma {:induction false} SuccessfulRound(s: State)
    requires WellFormed(s) && |s.order| >= MinClients
    requires Aggregate(s).1.RoundComplete?
    ensures var (s', out) := Aggregate(s);
      s'.round == s.round + 1 && out.round == s'.round &&
      |s'.order| == 0 && s'.pending == map[] &&
      out.clientsParticipated == |s.order| && out.strategy == s.strategy &&
      NewWeights(s.(round := s.round + 1)) == Success(s'.global) &&
      s'.history == RecordRound(s.history, out.metrics) &&
      out.metrics.round == s'.round && out.metrics.clientCount == |s.order| &&
      (s'.round % SaveModelFrequency == 0 ==> s'.saves == s.saves + [s'.round]) &&
      (s'.round % SaveModelFrequency != 0 ==> s'.saves == s.saves)
  {
  }

  /** A failed round keeps the buffer and the history, although the round has
      advanced (and the global weights may already have been replaced). */
  lemma {:induction false} FailedRoundKeepsBuffer(s: State)
    requires WellFormed(s) && |s.order| >= MinClients
    requires Aggregate(s).1.RoundFailed?
    ensures var (s', _) := Aggregate(s);
      s'.round == s.round + 1 && s'.order == s.order && s'.pending == s.pending &&
      s'.history == s.history && s'.saves == s.saves
  {
  }

  /** Any method name other than `weighted_avg` aggregates as `fedavg` does. */
  lemma {:induction false} UnknownMethodIsFedAvg(s: State)
    requires WellFormed(s) && 0 < |s.order| && s.strategy != WeightedAvgMethod
    ensures NewWeights(s) == NewWeights(s.(strategy := DefaultMethod))
  {
  }

  /** The server's FedAvg is the strategy module's FedAvg on the pending
      clients; with non-negative sample counts it stays within their range. */
  lemma {:induction false} ServerFedAvgIsFedAvg(s: State)
    requires WellFormed(s) && 0 < |s.order| && s.strategy != WeightedAvgMethod
    requires IntSum(SamplesOf(Updates(s))) != 0 && Compatible(WeightsOf(Updates(s)))
    ensures var us := Updates(s);
      NewWeights(s) == Success(WeightedCombination(WeightsOf(us), FedAvgWeights(SamplesOf(us), |us|)))
    ensures var us := Updates(s);
      (forall i :: 0 <= i < |us| ==> 0 <= us[i].samples) ==>
      WithinClientRange(WeightsOf(us), NewWeights(s).value)
  {
    var us := Updates(s);
    var samples := SamplesOf(us);
    if forall i :: 0 <= i < |us| ==> 0 <= us[i].samples {
      var ws := FedAvgWeights(samples, |us|);
      IntSumNonNegative(samples);
      FedAvgWeightsSumToOne(samples);
      forall i | 0 <= i < |ws|
        ensures 0.0 <= ws[i]
      {
        assert ws[i] == samples[i] as real / IntSum(samples) as real;
      }
      ConvexCombinationInRange(WeightsOf(us), ws);
    }
  }

  /** Accuracy weighting with non-negative accuracies stays within the
      clients' range. */
  lemma {:induction false} WeightedAvgInRange(s: State)
    requires WellFormed(s) && 0 < |s.order| && s.strategy == WeightedAvgMethod
    requires Compatible(WeightsOf(Updates(s)))
    requires Lasts(AccuracyLists(Updates(s))).Success?
    requires forall i :: 0 <= i < |s.order| ==> 0.0 <= Lasts(AccuracyLists(Updates(s))).value[i]
    ensures NewWeights(s).Success? && WithinClientRange(WeightsOf(Updates(s)), NewWeights(s).value)
  {
    var us := Updates(s);
    var accs := Lasts(AccuracyLists(us)).value;
    AccuracyWeightsSumToOne(accs);
    AccuracyWeightsShares(accs);
    ConvexCombinationInRange(WeightsOf(us), AccuracyWeights(accs));
  }

  /** Clients whose accuracies all total zero are averaged plainly. */
  lemma {:induction false} ZeroAccuracyIsPlainMean(s: State)
    requires WellFormed(s) && 0 < |s.order| && s.strategy == WeightedAvgMethod
    requires Compatible(WeightsOf(Updates(s)))
    requires Lasts(AccuracyLists(Updates(s))).Success?
    requires Sum(Lasts(AccuracyLists(Updates(s))).value) == 0.0
    ensures NewWeights(s) == Success(MeanMap(WeightsOf(Updates(s))))
  {
    var us := Updates(s);
    var accs := Lasts(AccuracyLists(us)).value;
    AccuracyWeightsShares(accs);
    EqualWeightsIsMean(WeightsOf(us), AccuracyWeights(accs));
  }

  // ---------------------------------------------------------------------
  // The server object
  // ---------------------------------------------------------------------

  class FederatedServer {
    var global: ParamMap
    var order: seq<string>
    var pending: map<string, ClientUpdate>
    var round: nat
    var strategy: string
    var history: History
    var saves: seq<nat>

    function Snapshot(): State
      reads this
    {
      State(global, order, pending, round, strategy, history, saves)
    }

    ghost predicate Valid()
      reads this
    {
      WellFormed(Snapshot())
    }

    constructor(architecture: ParamMap)
      ensures Valid() && Snapshot() == Initial(architecture)
    {
      global := architecture;
      order := [];
      pending := map[];
      round := 0;
      strategy := DefaultMethod;
      history := History([], [], []);
      saves := [];
    }

    /** `register_client_update`. */
    method RegisterClientUpdate(clientId: string, weights: ParamMap, metrics: ClientMetrics) returns (out: Outcome)
      requires Valid()
      modifies this
      ensures Valid()
      ensures (Snapshot(), out) == Register(old(Snapshot()), clientId, weights, metrics)
    {
      var update := ClientUpdate(weights, metrics, metrics.samplesUsed.GetOr(0));
      if clientId !in order {
        order := order + [clientId];
      }
      pending := pending[clientId := update];
      if |order| >= MinClients {
        out := AggregateUpdates();
      } else {
        out := Waiting(|order|, MinClients);
      }
    }

    /** `aggregate_updates`. */
    method AggregateUpdates() returns (out: Outcome)
      requires Valid()
      modifies this
      ensures Valid()
      ensures (Snapshot(), out) == Aggregate(old(Snapshot()))
    {
      ghost var start := Snapshot();
      if |order| < MinClients {
        return InsufficientClients;
      }
      round := round + 1;
      ghost var bumped := Snapshot();
      assert bumped == start.(round := start.round + 1);
      var newWeights := NewGlobalWeights();
      out := LoadWeights(newWeights);
    }

    /** The choice of rule by `config['aggregation_method']`. */
    method NewGlobalWeights() returns (r: Result<ParamMap, ServerError>)
      requires Valid() && 0 < |order|
      ensures r == NewWeights(Snapshot())
    {
      if strategy == WeightedAvgMethod {
        r := WeightedAverageAggregation();
      } else {
        r := FedAvgAggregation();
      }
    }

    /** The rest of `aggregate_updates` once the new weights (or the
      exception) are known. */
    method LoadWeights(newWeights: Result<ParamMap, ServerError>) returns (out: Outcome)
      requires Valid() && 0 < |order|
      modifies this
      ensures Valid()
      ensures (Snapshot(), out) == Load(old(Snapshot()), newWeights)
    {
      if newWeights.Failure? {
        return RoundFailed(newWeights.error);
      }
      if !SameShape(newWeights.value, global) {
        global := PartialLoad(global, newWeights.value);
        return RoundFailed(StateDictMismatch);
      }
      global := newWeights.value;
      out := FinishRound();
    }

    /** The metrics, the periodic save and the clearing of the buffer. */
    method FinishRound() returns (out: Outcome)
      requires Valid() && 0 < |order|
      modifies this
      ensures Valid()
      ensures (Snapshot(), out) == Finish(old(Snapshot()), MetricsOf(old(Snapshot())))
    {
      var metrics := CalculateAggregationMetrics();
      if metrics.Failure? {
        return RoundFailed(metrics.error);
      }
      if round % SaveModelFrequency == 0 {
        saves := saves + [round];
      }
      var participated := |order|;
      order := [];
      pending := map[];
      out := RoundComplete(round, participated, strategy, metrics.value);
    }

    /** `_fedavg_aggregation`: total the samples, then accumulate. */
    method FedAvgAggregation() returns (r: Result<ParamMap, ServerError>)
      requires Valid() && 0 < |order|
      ensures r == FedAvgRule(Updates(Snapshot()))
    {
      var us := Updates(Snapshot());
      var clients := WeightsOf(us);
      var samples := SamplesOf(us);
      var total := IntSum(samples);
      if total == 0 {
        return Failure(ZeroTotalSamples);
      }
      var avg := WeightedSum(clients, FedAvgWeights(samples, |samples|));
      r := if avg.Success? then Success(avg.value) else Failure(IncompatibleWeights);
    }

    /** `_weighted_average_aggregation`: one pass collecting each client's
      last accuracy and the total, then the weights and the accumulation. */
    method WeightedAverageAggregation() returns (r: Result<ParamMap, ServerError>)
      requires Valid() && 0 < |order|
      ensures r == WeightedAvgRule(Updates(Snapshot()))
    {
      var us := Updates(Snapshot());
      var collected, total := LastAccuracies(AccuracyLists(us));
      if collected.Failure? {
        return Failure(collected.error);
      }
      var accs := collected.value;
      var weights: seq<real>;
      if total == 0.0 {
        weights := seq(|us|, j requires 0 <= j < |us| => Share(|us|));
      } else {
        weights := seq(|us|, j requires 0 <= j < |us| => accs[j] / total);
      }
      assert weights == AccuracyWeights(accs);
      var clients := WeightsOf(us);
      var avg := WeightedSum(clients, weights);
      r := if avg.Success? then Success(avg.value) else Failure(IncompatibleWeights);
    }

    /** The first loop of `_weighted_average_aggregation`: each client's last
      accuracy, in dict order, and their running total. */
    static method LastAccuracies(lists: seq<Option<seq<real>>>) returns (r: Result<seq<real>, ServerError>, total: real)
      ensures r == Lasts(lists)
      ensures r.Success? ==> total == Sum(r.value)
    {
      var accs: seq<real> := [];
      total := 0.0;
      for i := 0 to |lists|
        invariant Lasts(lists[..i]) == Success(accs)
        invariant total == Sum(accs)
      {
        assert lists[..i + 1][..i] == lists[..i];
        var accuracy := LastOrZero(lists[i]);
        if accuracy.Failure? {
          LastsFailsAt(lists, i);
          return Failure(accuracy.error), total;
        }
        accs := accs + [accuracy.value];
        total := total + accuracy.value;
      }
      assert lists[..|lists|] == lists;
      r := Success(accs);
    }

    /** `_calculate_aggregation_metrics`: compute the metrics, then append to
      the history. An exception leaves the history as it was. */
    method CalculateAggregationMetrics() returns (r: Result<RoundMetrics, ServerError>)
      requires Valid() && 0 < |order|
      modifies this
      ensures Valid()
      ensures r == MetricsOf(old(Snapshot()))
      ensures r.Success? ==> Snapshot() == old(Snapshot()).(history := RecordRound(old(history), r.value))
      ensures r.Failure? ==> Snapshot() == old(Snapshot())
    {
      r := MetricsOf(Snapshot());
      if r.Success? {
        history := RecordRound(history, r.value);
      }
    }

    /** `get_server_status`. */
    function GetServerStatus(): ServerStatus
      reads this
    {
      Status(Snapshot())
    }
  }

  /** A failing element makes the whole collection fail. */
  lemma {:induction false} LastsFailsAt(lists: seq<Option<seq<real>>>, i: nat)
    requires i < |lists| && LastOrZero(lists[i]).Failure?
    ensures Lasts(lists).Failure?
  {
    LastsPointwise(lists);
  }
}
