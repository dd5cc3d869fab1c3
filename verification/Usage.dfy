/**
 Token usage: prices, the attribution of a session's turns to its tasks, and the usage tables.
 Amounts are exact (dollar values are reals), and the prices are one snapshot of the price table.
 */
module Usage {
  import opened Prelude
  import opened OrderedMap

  datatype Tokens = Tokens(input: int, output: int, cacheCreation: int, cacheRead: int) {
    function Plus(o: Tokens): Tokens {
      Tokens(input + o.input, output + o.output, cacheCreation + o.cacheCreation, cacheRead + o.cacheRead)
    }
    function Sum(): int { input + output + cacheCreation + cacheRead }
  }

  const NO_TOKENS: Tokens := Tokens(0, 0, 0, 0)

  // ---- prices ----

  datatype Price = Price(inputPerM: real, outputPerM: real, cacheReadPerM: real, cacheCreationPerM: real)

  const DEFAULT_PRICE: Price := Price(3.0, 15.0, 0.30, 3.75)

  type Prices = OMap<string, Price>

  /** The first listed price whose key is a prefix of the model name. */
  function FirstPrefix(prices: Prices, model: string): (r: Option<nat>)
    ensures r.Some? ==> r.value < |prices| && prices[r.value].0 <= model
    ensures forall i :: 0 <= i < |prices| && (r.Some? ==> i < r.value) ==> !(prices[i].0 <= model)
  {
    if prices == [] then None
    else if prices[0].0 <= model then Some(0)
    else match FirstPrefix(prices[1..], model) case None => None case Some(i) => Some(i + 1)
  }

  /** The first listed price whose key the model name is a prefix of. */
  function FirstExtension(prices: Prices, model: string): (r: Option<nat>)
    ensures r.Some? ==> r.value < |prices| && model <= prices[r.value].0
    ensures forall i :: 0 <= i < |prices| && (r.Some? ==> i < r.value) ==> !(model <= prices[i].0)
  {
    if prices == [] then None
    else if model <= prices[0].0 then Some(0)
    else match FirstExtension(prices[1..], model) case None => None case Some(i) => Some(i + 1)
  }

  /** Exact name, then a listed prefix of it, then a listed extension of it, then the default. */
  function PriceOf(prices: Prices, model: string): Price {
    var exact, prefix, extension := Get(prices, model), FirstPrefix(prices, model), FirstExtension(prices, model);
    if exact.Some? then exact.value
    else if prefix.Some? then prices[prefix.value].1
    else if extension.Some? then prices[extension.value].1
    else DEFAULT_PRICE
  }

  method GetPricing(prices: Prices, model: string) returns (p: Price)
    ensures p == PriceOf(prices, model)
  {
    var exact := Get(prices, model);
    if exact.Some? {
      return exact.value;
    }
    for i := 0 to |prices|
      invariant forall j :: 0 <= j < i ==> !(prices[j].0 <= model)
    {
      if prices[i].0 <= model {
        return prices[i].1;
      }
    }
    for i := 0 to |prices|
      invariant forall j :: 0 <= j < i ==> !(model <= prices[j].0)
    {
      if model <= prices[i].0 {
        return prices[i].1;
      }
    }
    p := DEFAULT_PRICE;
  }

  function Cost(p: Price, t: Tokens): real {
    t.input as real / 1000000.0 * p.inputPerM + t.output as real / 1000000.0 * p.outputPerM
    + t.cacheCreation as real / 1000000.0 * p.cacheCreationPerM + t.cacheRead as real / 1000000.0 * p.cacheReadPerM
  }

  lemma Distributes(a: real, b: real, c: real)
    ensures (a + b) / 1000000.0 * c == a / 1000000.0 * c + b / 1000000.0 * c
  {
    assert (a + b) / 1000000.0 == a / 1000000.0 + b / 1000000.0;
  }

  /** Cost is additive in token counts. */
  lemma CostAdds(p: Price, a: Tokens, b: Tokens)
    ensures Cost(p, a.Plus(b)) == Cost(p, a) + Cost(p, b)
  {
    Distributes(a.input as real, b.input as real, p.inputPerM);
    Distributes(a.output as real, b.output as real, p.outputPerM);
    Distributes(a.cacheCreation as real, b.cacheCreation as real, p.cacheCreationPerM);
    Distributes(a.cacheRead as real, b.cacheRead as real, p.cacheReadPerM);
  }

  /** Each kind of token is charged its own price: a million of it costs exactly that. */
  lemma MillionsCost(p: Price, k: int)
    ensures Cost(p, Tokens(1_000_000 * k, 0, 0, 0)) == k as real * p.inputPerM
    ensures Cost(p, Tokens(0, 1_000_000 * k, 0, 0)) == k as real * p.outputPerM
    ensures Cost(p, Tokens(0, 0, 1_000_000 * k, 0)) == k as real * p.cacheCreationPerM
    ensures Cost(p, Tokens(0, 0, 0, 1_000_000 * k)) == k as real * p.cacheReadPerM
  {
    assert (1_000_000 * k) as real / 1000000.0 == k as real;
  }

  /** Entry i is the first one whose key passes the test. */
  predicate IsFirst(prices: Prices, i: nat, test: string -> bool) {
    i < |prices| && test(prices[i].0) && forall j :: 0 <= j < i ==> !test(prices[j].0)
  }

  /**
   The lookup, case by case: a listed name, else the first listed beginning of it, else the first listed
   name it begins, else fixed prices.
   */
  lemma PriceLookup(prices: Prices, model: string, i: nat)
    requires DistinctKeys(prices)
    ensures i < |prices| && prices[i].0 == model ==> PriceOf(prices, model) == prices[i].1
    ensures (forall j :: 0 <= j < |prices| ==> prices[j].0 != model)
        && IsFirst(prices, i, (key: string) => key <= model)
        ==> PriceOf(prices, model) == prices[i].1
    ensures (forall j :: 0 <= j < |prices| ==> !(prices[j].0 <= model))
        && IsFirst(prices, i, (key: string) => model <= key)
        ==> PriceOf(prices, model) == prices[i].1
    ensures (forall j :: 0 <= j < |prices| ==> !(prices[j].0 <= model) && !(model <= prices[j].0))
              ==> PriceOf(prices, model) == Price(3.0, 15.0, 0.30, 3.75)
  {
    GetIsEntry(prices, model);
    if i < |prices| && prices[i].0 == model { GetAt(prices, i); }
  }

  // ---- turns and their owners ----

  datatype Turn = Turn(time: Option<int>, model: string, tokens: Tokens)

  /** A task as the attribution sees it; `createdAt` is None when the query does not select the column. */
  datatype TaskRef = TaskRef(id: nat, createdAt: Option<int>)

  /** JavaScript's comparison of two dates: false when either is invalid. */
  predicate NotAfter(a: Option<int>, b: Option<int>) {
    a.Some? && b.Some? && a.value <= b.value
  }

  /** How many leading tasks were created at or before the turn. */
  function LeadingTasks(tasks: seq<TaskRef>, time: Option<int>): (n: nat)
    ensures n <= |tasks|
    ensures forall i :: 0 <= i < n ==> NotAfter(tasks[i].createdAt, time)
    ensures n < |tasks| ==> !NotAfter(tasks[n].createdAt, time)
  {
    if tasks == [] || !NotAfter(tasks[0].createdAt, time) then 0
    else 1 + LeadingTasks(tasks[1..], time)
  }

  function Owner(tasks: seq<TaskRef>, time: Option<int>): (i: nat)
    requires tasks != []
    ensures i < |tasks|
  {
    var n := LeadingTasks(tasks, time);
    if n == 0 then 0 else n - 1
  }

  method FindOwner(tasks: seq<TaskRef>, time: Option<int>) returns (id: nat)
    requires tasks != []
    ensures id == tasks[Owner(tasks, time)].id
  {
    id := tasks[0].id;
    for i := 0 to |tasks|
      invariant forall j :: 0 <= j < i ==> NotAfter(tasks[j].createdAt, time)
      invariant id == tasks[if i == 0 then 0 else i - 1].id
    {
      if NotAfter(tasks[i].createdAt, time) {
        id := tasks[i].id;
      } else {
        return;
      }
    }
  }

  /** With creation times known and ascending, a turn belongs to the last task created by then, else to the first. */
  lemma OwnerIsLastCreated(tasks: seq<TaskRef>, time: int)
    requires tasks != [] && Ascending(tasks)
    ensures var o := Owner(tasks, Some(time));
            && (forall j :: o < j < |tasks| ==> tasks[j].createdAt.value > time)
            && (o > 0 ==> tasks[o].createdAt.value <= time)
  {
    var n := LeadingTasks(tasks, Some(time));
    assert n < |tasks| ==> tasks[n].createdAt.value > time;
  }

  /** The backfill's query selects only ids. Then every turn of the session goes to its first task. */
  lemma UnselectedTimesOwnNothing(tasks: seq<TaskRef>, time: Option<int>)
    requires tasks != [] && tasks[0].createdAt.None?
    ensures Owner(tasks, time) == 0
  {
  }

  /** The tasks as the backfill's query returns them: in creation order, but without the creation times. */
  function Unselected(tasks: seq<TaskRef>): (r: seq<TaskRef>)
    ensures |r| == |tasks| && forall i :: 0 <= i < |tasks| ==> r[i] == TaskRef(tasks[i].id, None)
  {
    seq(|tasks|, i requires 0 <= i < |tasks| => TaskRef(tasks[i].id, None))
  }

  /** The turn comes before the session's second task, if there is one. */
  predicate BeforeSecond(tasks: seq<TaskRef>, time: Option<int>) {
    |tasks| <= 1 || !NotAfter(tasks[1].createdAt, time)
  }

  predicate Ascending(tasks: seq<TaskRef>) {
    && (forall i :: 0 <= i < |tasks| ==> tasks[i].createdAt.Some?)
    && (forall i, j :: 0 <= i < j < |tasks| ==> tasks[i].createdAt.value <= tasks[j].createdAt.value)
  }

  lemma OwnerIsFirstIff(tasks: seq<TaskRef>, time: Option<int>)
    requires tasks != [] && Ascending(tasks)
    ensures Owner(tasks, time) == 0 <==> BeforeSecond(tasks, time)
  {
    var n := LeadingTasks(tasks, time);
    if |tasks| > 1 && NotAfter(tasks[1].createdAt, time) {
      assert NotAfter(tasks[0].createdAt, time);
      assert n >= 2;
    }
  }

  /** As written, the backfill finds the right owner of a turn if and only if the turn precedes the second task. */
  lemma UnselectedOwnerIsRightIff(tasks: seq<TaskRef>, time: Option<int>)
    requires tasks != [] && Ascending(tasks)
    ensures Owner(Unselected(tasks), time) == Owner(tasks, time) <==> BeforeSecond(tasks, time)
  {
    UnselectedTimesOwnNothing(Unselected(tasks), time);
    OwnerIsFirstIff(tasks, time);
  }

  // ---- attribution ----

  type Models = OMap<string, Tokens>
  datatype TaskUse = TaskUse(models: Models, turns: nat)
  type Uses = map<nat, TaskUse>

  function ModelTokens(models: Models, model: string): Tokens {
    match Get(models, model) case None => NO_TOKENS case Some(t) => t
  }

  function UseOf(uses: Uses, id: nat): TaskUse {
    if id in uses then uses[id] else TaskUse([], 0)
  }

  function WithTurn(u: TaskUse, turn: Turn): TaskUse {
    TaskUse(Put(u.models, turn.model, ModelTokens(u.models, turn.model).Plus(turn.tokens)), u.turns + 1)
  }

  function Attributed(tasks: seq<TaskRef>, turns: seq<Turn>): Uses
    requires tasks != []
  {
    if turns == [] then map[]
    else
      var last := turns[|turns| - 1];
      var uses := Attributed(tasks, turns[..|turns| - 1]);
      var id := tasks[Owner(tasks, last.time)].id;
      uses[id := WithTurn(UseOf(uses, id), last)]
  }

  method AttributeTurns(tasks: seq<TaskRef>, turns: seq<Turn>) returns (uses: Uses)
    requires tasks != []
    ensures uses == Attributed(tasks, turns)
  {
    uses := map[];
    for k := 0 to |turns|
      invariant uses == Attributed(tasks, turns[..k])
    {
      var turn := turns[k];
      assert turns[..k + 1][..k] == turns[..k];
      var id := FindOwner(tasks, turn.time);
      if id !in uses {
        uses := uses[id := TaskUse([], 0)];
      }
      var u := uses[id];
      var soFar := ModelTokens(u.models, turn.model);
      uses := uses[id := TaskUse(Put(u.models, turn.model, soFar.Plus(turn.tokens)), u.turns + 1)];
    }
    assert turns[..|turns|] == turns;
  }

  // ---- when the backfill attributes rightly ----

  /** How many of the turns belong to the task at position o. */
  function OwnedBy(tasks: seq<TaskRef>, turns: seq<Turn>, o: nat): (n: nat)
    requires tasks != []
    ensures n <= |turns|
  {
    if turns == [] then 0
    else
      var last := turns[|turns| - 1];
      OwnedBy(tasks, turns[..|turns| - 1], o) + if Owner(tasks, last.time) == o then 1 else 0
  }

  lemma {:induction false} TurnsAreOwned(tasks: seq<TaskRef>, turns: seq<Turn>, o: nat)
    requires o < |tasks| && DistinctIds(tasks)
    ensures UseOf(Attributed(tasks, turns), tasks[o].id).turns == OwnedBy(tasks, turns, o)
  {
    if turns != [] {
      TurnsAreOwned(tasks, turns[..|turns| - 1], o);
    }
  }

  lemma {:induction false} AllOwnedIff(tasks: seq<TaskRef>, turns: seq<Turn>, o: nat)
    requires tasks != []
    ensures OwnedBy(tasks, turns, o) == |turns| <==> forall k :: 0 <= k < |turns| ==> Owner(tasks, turns[k].time) == o
  {
    if turns != [] {
      var n := |turns| - 1;
      AllOwnedIff(tasks, turns[..n], o);
      assert turns == turns[..n] + [turns[n]];
    }
  }

  lemma {:induction false} SameOwnersSameUse(a: seq<TaskRef>, b: seq<TaskRef>, turns: seq<Turn>)
    requires a != [] && |a| == |b| && forall i :: 0 <= i < |a| ==> a[i].id == b[i].id
    requires forall k :: 0 <= k < |turns| ==> Owner(a, turns[k].time) == Owner(b, turns[k].time)
    ensures Attributed(a, turns) == Attributed(b, turns)
  {
    if turns != [] {
      var n := |turns| - 1;
      forall k | 0 <= k < n ensures Owner(a, turns[..n][k].time) == Owner(b, turns[..n][k].time) {
        assert turns[..n][k] == turns[k];
      }
      SameOwnersSameUse(a, b, turns[..n]);
      assert Owner(a, turns[n].time) == Owner(b, turns[n].time);
    }
  }

  lemma {:induction false} FirstTakesAll(tasks: seq<TaskRef>, turns: seq<Turn>)
    requires tasks != []
    ensures OwnedBy(Unselected(tasks), turns, 0) == |turns|
  {
    if turns != [] {
      FirstTakesAll(tasks, turns[..|turns| - 1]);
      UnselectedTimesOwnNothing(Unselected(tasks), turns[|turns| - 1].time);
    }
  }

  /** As written, the backfill attributes a session rightly if and only if every turn precedes its second task. */
  lemma BackfillIsRightIff(tasks: seq<TaskRef>, turns: seq<Turn>)
    requires tasks != [] && DistinctIds(tasks) && Ascending(tasks)
    ensures Attributed(Unselected(tasks), turns) == Attributed(tasks, turns)
       <==> forall k :: 0 <= k < |turns| ==> BeforeSecond(tasks, turns[k].time)
  {
    var ids := Unselected(tasks);
    assert DistinctIds(ids);
    forall k | 0 <= k < |turns|
      ensures Owner(tasks, turns[k].time) == 0 <==> BeforeSecond(tasks, turns[k].time)
      ensures Owner(ids, turns[k].time) == 0
    {
      OwnerIsFirstIff(tasks, turns[k].time);
      UnselectedTimesOwnNothing(ids, turns[k].time);
    }
    TurnsAreOwned(ids, turns, 0);
    TurnsAreOwned(tasks, turns, 0);
    FirstTakesAll(tasks, turns);
    AllOwnedIff(tasks, turns, 0);
    if forall k :: 0 <= k < |turns| ==> BeforeSecond(tasks, turns[k].time) {
      SameOwnersSameUse(ids, tasks, turns);
    }
  }

  // ---- conservation ----

  /** What a model's tokens are worth: the four counts and their cost, for the models `pick` selects. */
  datatype Worth = Worth(tokens: Tokens, cost: real) {
    function Plus(o: Worth): Worth { Worth(tokens.Plus(o.tokens), cost + o.cost) }
  }

  const NOTHING: Worth := Worth(NO_TOKENS, 0.0)

  function WorthOf(prices: Prices, pick: string -> bool, model: string, t: Tokens): Worth {
    if pick(model) then Worth(t, Cost(PriceOf(prices, model), t)) else NOTHING
  }

  /** A valuation of model tokens that adds up. */
  type Valuation = (string, Tokens) -> Worth

  ghost predicate Additive(w: Valuation) {
    && (forall n :: w(n, NO_TOKENS) == NOTHING)
    && (forall n, a: Tokens, b: Tokens :: w(n, a.Plus(b)) == w(n, a).Plus(w(n, b)))
  }

  function Valued(prices: Prices, pick: string -> bool): Valuation {
    (model: string, t: Tokens) => WorthOf(prices, pick, model, t)
  }

  lemma ValuedIsAdditive(prices: Prices, pick: string -> bool)
    ensures Additive(Valued(prices, pick))
  {
    var w := Valued(prices, pick);
    forall n, a: Tokens, b: Tokens ensures w(n, a.Plus(b)) == w(n, a).Plus(w(n, b)) {
      CostAdds(PriceOf(prices, n), a, b);
    }
  }

  function ModelsWorth(w: Valuation, models: Models): Worth {
    if models == [] then NOTHING else w(models[0].0, models[0].1).Plus(ModelsWorth(w, models[1..]))
  }

  function TasksWorth(w: Valuation, tasks: seq<TaskRef>, uses: Uses): Worth {
    if tasks == [] then NOTHING
    else ModelsWorth(w, UseOf(uses, tasks[0].id).models).Plus(TasksWorth(w, tasks[1..], uses))
  }

  function TurnsWorth(w: Valuation, turns: seq<Turn>): Worth {
    if turns == [] then NOTHING
    else TurnsWorth(w, turns[..|turns| - 1]).Plus(w(turns[|turns| - 1].model, turns[|turns| - 1].tokens))
  }

  function TurnCount(tasks: seq<TaskRef>, uses: Uses): nat {
    if tasks == [] then 0 else UseOf(uses, tasks[0].id).turns + TurnCount(tasks[1..], uses)
  }

  /** Adding tokens to one model's entry adds exactly their worth. */
  lemma {:induction false} PutAddsWorth(w: Valuation, models: Models, model: string, t: Tokens)
    requires Additive(w)
    ensures ModelsWorth(w, Put(models, model, ModelTokens(models, model).Plus(t)))
        == ModelsWorth(w, models).Plus(w(model, t))
  {
    var p := Put(models, model, ModelTokens(models, model).Plus(t));
    assert w(model, ModelTokens(models, model).Plus(t)) == w(model, ModelTokens(models, model)).Plus(w(model, t));
    if models == [] {
      assert p[1..] == [];
    } else if models[0].0 == model {
      assert p[1..] == models[1..];
    } else {
      assert p[1..] == Put(models[1..], model, ModelTokens(models[1..], model).Plus(t));
      PutAddsWorth(w, models[1..], model, t);
    }
  }

  predicate DistinctIds(tasks: seq<TaskRef>) {
    forall i, j :: 0 <= i < j < |tasks| ==> tasks[i].id != tasks[j].id
  }

  lemma {:induction false} OtherTasks(w: Valuation, tasks: seq<TaskRef>, uses: Uses, id: nat, u: TaskUse)
    requires forall i :: 0 <= i < |tasks| ==> tasks[i].id != id
    ensures TasksWorth(w, tasks, uses[id := u]) == TasksWorth(w, tasks, uses)
    ensures TurnCount(tasks, uses[id := u]) == TurnCount(tasks, uses)
  {
    if tasks != [] {
      OtherTasks(w, tasks[1..], uses, id, u);
    }
  }

  lemma PlusSwaps(a: Worth, b: Worth, c: Worth)
    ensures a.Plus(b).Plus(c) == a.Plus(c).Plus(b) == a.Plus(b.Plus(c))
  {
  }

  lemma {:induction false} OneTaskGains(w: Valuation, tasks: seq<TaskRef>, uses: Uses, after: Uses, o: nat, turn: Turn)
    requires Additive(w) && DistinctIds(tasks) && o < |tasks|
    requires after == uses[tasks[o].id := WithTurn(UseOf(uses, tasks[o].id), turn)]
    ensures TasksWorth(w, tasks, after) == TasksWorth(w, tasks, uses).Plus(w(turn.model, turn.tokens))
    ensures TurnCount(tasks, after) == TurnCount(tasks, uses) + 1
  {
    var id, gain := tasks[0].id, w(turn.model, turn.tokens);
    var head, tail := ModelsWorth(w, UseOf(uses, id).models), TasksWorth(w, tasks[1..], uses);
    PlusSwaps(head, tail, gain);
    if o == 0 {
      assert UseOf(after, id) == WithTurn(UseOf(uses, id), turn);
      OtherTasks(w, tasks[1..], uses, id, UseOf(after, id));
      PutAddsWorth(w, UseOf(uses, id).models, turn.model, turn.tokens);
    } else {
      assert UseOf(after, id) == UseOf(uses, id);
      assert tasks[1..][o - 1] == tasks[o];
      OneTaskGains(w, tasks[1..], uses, after, o - 1, turn);
    }
  }

  lemma NothingMore(a: Worth, b: Worth)
    requires a == NOTHING && b == NOTHING
    ensures a.Plus(b) == NOTHING
  {
    assert NOTHING == Worth(Tokens(0, 0, 0, 0), 0.0);
  }

  lemma {:induction false} NothingAttributed(w: Valuation, tasks: seq<TaskRef>, uses: Uses)
    requires uses == map[]
    ensures TasksWorth(w, tasks, uses) == NOTHING
  {
    if tasks != [] {
      var models := UseOf(uses, tasks[0].id).models;
      NothingAttributed(w, tasks[1..], uses);
      NothingMore(ModelsWorth(w, models), TasksWorth(w, tasks[1..], uses));
    }
  }

  lemma {:induction false} NoTurnsAttributed(tasks: seq<TaskRef>, uses: Uses)
    requires uses == map[]
    ensures TurnCount(tasks, uses) == 0
  {
    if tasks != [] {
      NoTurnsAttributed(tasks[1..], uses);
    }
  }

  /** Whatever additive value is put on tokens, the tasks together hold the value of the turns. */
  lemma {:induction false} AttributionAdds(w: Valuation, tasks: seq<TaskRef>, turns: seq<Turn>)
    requires Additive(w) && tasks != [] && DistinctIds(tasks)
    ensures TasksWorth(w, tasks, Attributed(tasks, turns)) == TurnsWorth(w, turns)
    ensures TurnCount(tasks, Attributed(tasks, turns)) == |turns|
  {
    if turns == [] {
      NothingAttributed(w, tasks, map[]);
      NoTurnsAttributed(tasks, map[]);
    } else {
      var rest, last := turns[..|turns| - 1], turns[|turns| - 1];
      AttributionAdds(w, tasks, rest);
      OneTaskGains(w, tasks, Attributed(tasks, rest), Attributed(tasks, turns), Owner(tasks, last.time), last);
    }
  }

  /**
   Attribution conserves: summed over the tasks, each token kind, the cost and the number of turns
   are those of the turns, for all models together and for any selection of them.
   */
  lemma AttributionConserves(prices: Prices, pick: string -> bool, tasks: seq<TaskRef>, turns: seq<Turn>)
    requires tasks != [] && DistinctIds(tasks)
    ensures TasksWorth(Valued(prices, pick), tasks, Attributed(tasks, turns)) == TurnsWorth(Valued(prices, pick), turns)
    ensures TurnCount(tasks, Attributed(tasks, turns)) == |turns|
  {
    ValuedIsAdditive(prices, pick);
    AttributionAdds(Valued(prices, pick), tasks, turns);
  }

  // ---- the four kinds, counted one by one ----

  datatype Kind = Input | Output | CacheCreation | CacheRead

  function CountOf(kind: Kind, t: Tokens): int {
    match kind
    case Input => t.input
    case Output => t.output
    case CacheCreation => t.cacheCreation
    case CacheRead => t.cacheRead
  }

  /** All tokens of one kind in the turns. */
  function TurnsCount(kind: Kind, turns: seq<Turn>): int {
    if turns == [] then 0
    else TurnsCount(kind, turns[..|turns| - 1]) + CountOf(kind, turns[|turns| - 1].tokens)
  }

  function ModelsCount(kind: Kind, models: Models): int {
    if models == [] then 0 else CountOf(kind, models[0].1) + ModelsCount(kind, models[1..])
  }

  /** All tokens of one kind that the tasks have been given. */
  function TasksCount(kind: Kind, tasks: seq<TaskRef>, uses: Uses): int {
    if tasks == [] then 0
    else ModelsCount(kind, UseOf(uses, tasks[0].id).models) + TasksCount(kind, tasks[1..], uses)
  }

  lemma CountAdds(kind: Kind, a: Tokens, b: Tokens)
    ensures CountOf(kind, a.Plus(b)) == CountOf(kind, a) + CountOf(kind, b) && CountOf(kind, NO_TOKENS) == 0
  {
  }

  /** The valuation values every token. */
  ghost predicate KeepsTokens(w: Valuation) {
    forall n, t: Tokens :: w(n, t).tokens == t
  }

  lemma EveryTokenIsWorth(prices: Prices)
    ensures KeepsTokens(Valued(prices, EVERY))
  {
    forall n, t: Tokens ensures Valued(prices, EVERY)(n, t).tokens == t {
      assert WorthOf(prices, EVERY, n, t).tokens == t;
    }
  }

  lemma {:induction false} TurnsCountIs(w: Valuation, kind: Kind, turns: seq<Turn>)
    requires KeepsTokens(w)
    ensures CountOf(kind, TurnsWorth(w, turns).tokens) == TurnsCount(kind, turns)
  {
    if turns != [] {
      var n := |turns| - 1;
      TurnsCountIs(w, kind, turns[..n]);
      CountAdds(kind, TurnsWorth(w, turns[..n]).tokens, turns[n].tokens);
    }
  }

  lemma {:induction false} ModelsCountIs(w: Valuation, kind: Kind, models: Models)
    requires KeepsTokens(w)
    ensures CountOf(kind, ModelsWorth(w, models).tokens) == ModelsCount(kind, models)
  {
    if models != [] {
      ModelsCountIs(w, kind, models[1..]);
      CountAdds(kind, models[0].1, ModelsWorth(w, models[1..]).tokens);
    }
  }

  lemma {:induction false} TasksCountIs(w: Valuation, kind: Kind, tasks: seq<TaskRef>, uses: Uses)
    requires KeepsTokens(w)
    ensures CountOf(kind, TasksWorth(w, tasks, uses).tokens) == TasksCount(kind, tasks, uses)
  {
    if tasks != [] {
      var models := UseOf(uses, tasks[0].id).models;
      ModelsCountIs(w, kind, models);
      TasksCountIs(w, kind, tasks[1..], uses);
      CountAdds(kind, ModelsWorth(w, models).tokens, TasksWorth(w, tasks[1..], uses).tokens);
    }
  }

  /** Attribution loses and invents no token of any of the four kinds. */
  lemma KindsAreConserved(prices: Prices, kind: Kind, tasks: seq<TaskRef>, turns: seq<Turn>)
    requires tasks != [] && DistinctIds(tasks)
    ensures TasksCount(kind, tasks, Attributed(tasks, turns)) == TurnsCount(kind, turns)
  {
    AttributionConserves(prices, EVERY, tasks, turns);
    EveryTokenIsWorth(prices);
    TurnsCountIs(Valued(prices, EVERY), kind, turns);
    TasksCountIs(Valued(prices, EVERY), kind, tasks, Attributed(tasks, turns));
  }

  // ---- the usage tables ----

  datatype ModelUse = ModelUse(model: string, tokens: Tokens)
  datatype UsageReport = UsageReport(turns: nat, totals: Tokens, totalTokens: int, models: OMap<string, ModelUse>)
  datatype UsageRow = UsageRow(turns: nat, totals: Tokens, totalTokens: int, totalCost: real, models: seq<string>)
  datatype ModelRow = ModelRow(tokens: Tokens, cost: real)

  function Keys(models: OMap<string, ModelUse>): (r: seq<string>)
    ensures |r| == |models| && forall i :: 0 <= i < |models| ==> r[i] == models[i].0
  {
    seq(|models|, i requires 0 <= i < |models| => models[i].0)
  }

  function CostOfModels(prices: Prices, models: OMap<string, ModelUse>): real {
    if models == [] then 0.0
    else
      var last := models[|models| - 1].1;
      CostOfModels(prices, models[..|models| - 1]) + Cost(PriceOf(prices, last.model), last.tokens)
  }

  /** Every entry is filed under its own name. */
  predicate NamedByKey(models: OMap<string, ModelUse>) {
    forall i :: 0 <= i < |models| ==> models[i].1.model == models[i].0
  }

  function RowOf(prices: Prices, m: ModelUse): ModelRow {
    ModelRow(m.tokens, Cost(PriceOf(prices, m.model), m.tokens))
  }

  /** Total of the stored costs of the listed models. */
  function StoredCost(rows: map<(nat, string), ModelRow>, id: nat, names: seq<string>): real
  {
    if names == [] then 0.0
    else
      var key := (id, names[|names| - 1]);
      StoredCost(rows, id, names[..|names| - 1]) + if key in rows then rows[key].cost else 0.0
  }

  lemma {:induction false} StoredCostIsTotal(prices: Prices, rows: map<(nat, string), ModelRow>, id: nat,
                                             models: OMap<string, ModelUse>)
    requires NamedByKey(models)
    requires forall i :: 0 <= i < |models|
               ==> (id, models[i].0) in rows && rows[(id, models[i].0)] == RowOf(prices, models[i].1)
    ensures StoredCost(rows, id, Keys(models)) == CostOfModels(prices, models)
  {
    if models != [] {
      var n := |models| - 1;
      StoredCostIsTotal(prices, rows, id, models[..n]);
      assert Keys(models)[..n] == Keys(models[..n]);
    }
  }

  ghost predicate SameElsewhere(a: map<(nat, string), ModelRow>, b: map<(nat, string), ModelRow>, id: nat) {
    forall k: (nat, string) :: k.0 != id ==> (k in a <==> k in b) && (k in a ==> a[k] == b[k])
  }

  /** Some entry of the report carries this model name. */
  predicate Reported(models: OMap<string, ModelUse>, name: string) {
    exists i :: 0 <= i < |models| && models[i].1.model == name
  }

  function ReportRow(r: UsageReport, prices: Prices): UsageRow {
    UsageRow(r.turns, r.totals, r.totalTokens, CostOfModels(prices, r.models), Keys(r.models))
  }

  /** The tables hold the report: its totals, exactly its models, and costs that add up to the total. */
  ghost predicate HoldsReport(usage: map<nat, UsageRow>, rows: map<(nat, string), ModelRow>, id: nat, r: UsageReport,
                              prices: Prices) {
    && id in usage && usage[id] == ReportRow(r, prices)
    && (forall name :: (id, name) in rows <==> name in Keys(r.models))
    && (forall i :: 0 <= i < |r.models|
          ==> (id, r.models[i].0) in rows && rows[(id, r.models[i].0)] == RowOf(prices, r.models[i].1))
    && StoredCost(rows, id, Keys(r.models)) == usage[id].totalCost
  }

  class UsageStore {
    var usage: map<nat, UsageRow>
    var modelUsage: map<(nat, string), ModelRow>

    constructor ()
      ensures usage == map[] && modelUsage == map[]
    {
      usage, modelUsage := map[], map[];
    }

    /**
     Replaces a task's usage. A model row survives when its name is a key of the report and it was
     written now or before; when entries are filed under their own names, the rows are exactly the
     reported ones and their costs add up to the stored total, whatever was stored before.
     */
    method UpsertTaskUsage(id: nat, r: UsageReport, prices: Prices)
      requires DistinctKeys(r.models)
      modifies this
      ensures usage == old(usage)[id := ReportRow(r, prices)]
      ensures SameElsewhere(modelUsage, old(modelUsage), id)
      ensures forall name :: (id, name) in modelUsage
                <==> name in Keys(r.models) && (Reported(r.models, name) || (id, name) in old(modelUsage))
      ensures NamedByKey(r.models) ==> HoldsReport(usage, modelUsage, id, r, prices)
    {
      var names := Keys(r.models);
      var totalCost := TotalCost(r.models, prices);
      usage := usage[id := UsageRow(r.turns, r.totals, r.totalTokens, totalCost, names)];
      UpsertModelRows(id, r.models, prices);
      modelUsage := map k | k in modelUsage && (k.0 != id || k.1 in names) :: modelUsage[k];
      if NamedByKey(r.models) {
        forall i | 0 <= i < |r.models|
          ensures (id, r.models[i].0) in modelUsage && modelUsage[(id, r.models[i].0)] == RowOf(prices, r.models[i].1)
        {
          assert names[i] == r.models[i].0;
        }
        StoredCostIsTotal(prices, modelUsage, id, r.models);
      }
    }

    method UpsertModelRows(id: nat, models: OMap<string, ModelUse>, prices: Prices)
      requires DistinctKeys(models)
      modifies this`modelUsage
      ensures SameElsewhere(modelUsage, old(modelUsage), id)
      ensures forall name :: (id, name) in modelUsage <==> Reported(models, name) || (id, name) in old(modelUsage)
      ensures NamedByKey(models) ==> forall i :: 0 <= i < |models| ==>
                (id, models[i].0) in modelUsage && modelUsage[(id, models[i].0)] == RowOf(prices, models[i].1)
    {
      for i := 0 to |models|
        invariant SameElsewhere(modelUsage, old(modelUsage), id)
        invariant forall name :: (id, name) in modelUsage
                    <==> Reported(models[..i], name) || (id, name) in old(modelUsage)
        invariant NamedByKey(models) ==> forall j :: 0 <= j < i ==>
          (id, models[j].0) in modelUsage && modelUsage[(id, models[j].0)] == RowOf(prices, models[j].1)
      {
        var m := models[i].1;
        var p := GetPricing(prices, m.model);
        modelUsage := modelUsage[(id, m.model) := ModelRow(m.tokens, Cost(p, m.tokens))];
        assert models[..i + 1] == models[..i] + [models[i]];
        ReportedGrows(models[..i], models[i]);
      }
      assert models[..|models|] == models;
    }

    /** Stores what attribution gave each task of a session: its models and totals, and no other model. */
    method StoreAttribution(tasks: seq<TaskRef>, uses: Uses, prices: Prices)
      requires DistinctIds(tasks) && (forall id :: id in uses ==> DistinctKeys(uses[id].models))
      modifies this
      ensures Stored(tasks, uses, prices, usage, modelUsage)
    {
      for i := 0 to |tasks|
        invariant Stored(tasks[..i], uses, prices, usage, modelUsage)
      {
        var u := UseOf(uses, tasks[i].id);
        var totals := AddUp(u.models);
        var models := Labelled(u.models);
        ghost var before, rowsBefore := usage, modelUsage;
        var report := UsageReport(u.turns, totals, totals.Sum(), models);
        UpsertTaskUsage(tasks[i].id, report, prices);
        ReportStoresUse(usage, modelUsage, tasks[i].id, report, prices, u);
        StoredGrows(tasks, i, uses, prices, before, rowsBefore, usage, modelUsage);
      }
      assert tasks[..|tasks|] == tasks;
    }
  }

  ghost predicate Stored(tasks: seq<TaskRef>, uses: Uses, prices: Prices, usage: map<nat, UsageRow>,
                         rows: map<(nat, string), ModelRow>) {
    forall i :: 0 <= i < |tasks| ==>
      tasks[i].id in usage && StoresUse(usage[tasks[i].id], prices, UseOf(uses, tasks[i].id))
      && StoresModels(rows, tasks[i].id, prices, UseOf(uses, tasks[i].id).models)
  }

  /** The model rows of a task are exactly its attributed models, each with its tokens and their cost. */
  ghost predicate StoresModels(rows: map<(nat, string), ModelRow>, id: nat, prices: Prices, models: Models) {
    forall name ::
      && ((id, name) in rows <==> Get(models, name).Some?)
      && ((id, name) in rows ==>
            rows[(id, name)] == ModelRow(ModelTokens(models, name),
                                         Cost(PriceOf(prices, name), ModelTokens(models, name))))
  }

  lemma ReportStoresUse(usage: map<nat, UsageRow>, rows: map<(nat, string), ModelRow>, id: nat, r: UsageReport,
                        prices: Prices, u: TaskUse)
    requires DistinctKeys(u.models) && r.models == Labelled(u.models) && HoldsReport(usage, rows, id, r, prices)
    requires r.turns == u.turns && r.totals == SumOfModels(u.models) && r.totalTokens == r.totals.Sum()
    ensures StoresUse(usage[id], prices, u) && StoresModels(rows, id, prices, u.models)
  {
    forall name
      ensures (id, name) in rows <==> Get(u.models, name).Some?
      ensures (id, name) in rows ==>
        rows[(id, name)] == ModelRow(ModelTokens(u.models, name),
                                     Cost(PriceOf(prices, name), ModelTokens(u.models, name)))
    {
      GetIsEntry(u.models, name);
      if name in Keys(r.models) {
        var i :| 0 <= i < |r.models| && r.models[i].0 == name;
        GetAt(u.models, i);
      }
    }
  }

  method TotalCost(models: OMap<string, ModelUse>, prices: Prices) returns (total: real)
    ensures total == CostOfModels(prices, models)
  {
    total := 0.0;
    for i := 0 to |models|
      invariant total == CostOfModels(prices, models[..i])
    {
      var m := models[i].1;
      var p := GetPricing(prices, m.model);
      total := total + Cost(p, m.tokens);
      assert models[..i + 1][..i] == models[..i];
    }
    assert models[..|models|] == models;
  }

  lemma ReportedGrows(models: OMap<string, ModelUse>, e: (string, ModelUse))
    ensures forall name :: Reported(models + [e], name) <==> Reported(models, name) || e.1.model == name
  {
    var all := models + [e];
    forall name ensures Reported(all, name) <==> Reported(models, name) || e.1.model == name {
      if Reported(models, name) {
        var i :| 0 <= i < |models| && models[i].1.model == name;
        assert all[i].1.model == name;
      } else if e.1.model == name {
        assert all[|models|].1.model == name;
      }
    }
  }

  function SumOfModels(models: Models): Tokens {
    if models == [] then NO_TOKENS else SumOfModels(models[..|models| - 1]).Plus(models[|models| - 1].1)
  }

  method AddUp(models: Models) returns (totals: Tokens)
    ensures totals == SumOfModels(models)
  {
    totals := NO_TOKENS;
    for j := 0 to |models|
      invariant totals == SumOfModels(models[..j])
    {
      totals := totals.Plus(models[j].1);
      assert models[..j + 1][..j] == models[..j];
    }
    assert models[..|models|] == models;
  }

  function Labelled(models: Models): (r: OMap<string, ModelUse>)
    ensures |r| == |models| && forall i :: 0 <= i < |models|
                                 ==> r[i] == (models[i].0, ModelUse(models[i].0, models[i].1))
  {
    seq(|models|, i requires 0 <= i < |models| => (models[i].0, ModelUse(models[i].0, models[i].1)))
  }

  lemma StoredGrows(tasks: seq<TaskRef>, i: nat, uses: Uses, prices: Prices,
                    before: map<nat, UsageRow>, rowsBefore: map<(nat, string), ModelRow>,
                    after: map<nat, UsageRow>, rows: map<(nat, string), ModelRow>)
    requires DistinctIds(tasks) && i < |tasks| && Stored(tasks[..i], uses, prices, before, rowsBefore)
    requires tasks[i].id in after && after == before[tasks[i].id := after[tasks[i].id]]
    requires SameElsewhere(rows, rowsBefore, tasks[i].id)
    requires StoresUse(after[tasks[i].id], prices, UseOf(uses, tasks[i].id))
    requires StoresModels(rows, tasks[i].id, prices, UseOf(uses, tasks[i].id).models)
    ensures Stored(tasks[..i + 1], uses, prices, after, rows)
  {
    forall j | 0 <= j < i + 1
      ensures tasks[j].id in after && StoresUse(after[tasks[j].id], prices, UseOf(uses, tasks[j].id))
      ensures StoresModels(rows, tasks[j].id, prices, UseOf(uses, tasks[j].id).models)
    {
      if j < i {
        assert tasks[..i][j] == tasks[j] && tasks[j].id != tasks[i].id;
        assert after[tasks[j].id] == before[tasks[j].id];
        ModelsElsewhere(rowsBefore, rows, tasks[i].id, tasks[j].id, prices, UseOf(uses, tasks[j].id).models);
      }
    }
  }

  lemma ModelsElsewhere(before: map<(nat, string), ModelRow>, after: map<(nat, string), ModelRow>, id: nat, other: nat,
                        prices: Prices, models: Models)
    requires other != id && SameElsewhere(after, before, id) && StoresModels(before, other, prices, models)
    ensures StoresModels(after, other, prices, models)
  {
    forall name
      ensures (other, name) in after <==> (other, name) in before
      ensures (other, name) in after ==> after[(other, name)] == before[(other, name)]
    {
      assert (other, name).0 != id;
    }
  }

  /** The stored row is the task's attributed worth. */
  ghost predicate StoresUse(row: UsageRow, prices: Prices, u: TaskUse) {
    && row.turns == u.turns && row.totals == SumOfModels(u.models) && row.totalTokens == row.totals.Sum()
    && row.totalCost == CostOfModels(prices, Labelled(u.models)) && row.models == Keys(Labelled(u.models))
  }

  const EVERY: string -> bool := (name: string) => true

  lemma {:induction false} WorthSnoc(w: Valuation, models: Models, e: (string, Tokens))
    ensures ModelsWorth(w, models + [e]) == ModelsWorth(w, models).Plus(w(e.0, e.1))
  {
    var all := models + [e];
    if models == [] {
      assert all[1..] == [];
    } else {
      assert all[1..] == models[1..] + [e];
      WorthSnoc(w, models[1..], e);
    }
  }

  lemma {:induction false} FrontToBack(prices: Prices, models: Models)
    ensures ModelsWorth(Valued(prices, EVERY), models)
        == Worth(SumOfModels(models), CostOfModels(prices, Labelled(models)))
  {
    if models != [] {
      var n := |models| - 1;
      FrontToBack(prices, models[..n]);
      assert Labelled(models)[..n] == Labelled(models[..n]);
      WorthSnoc(Valued(prices, EVERY), models[..n], models[n]);
      assert models[..n] + [models[n]] == models;
    }
  }

  function StoredWorth(tasks: seq<TaskRef>, usage: map<nat, UsageRow>): Worth
    requires forall i :: 0 <= i < |tasks| ==> tasks[i].id in usage
  {
    if tasks == [] then NOTHING
    else Worth(usage[tasks[0].id].totals, usage[tasks[0].id].totalCost).Plus(StoredWorth(tasks[1..], usage))
  }

  lemma {:induction false} StoredIsAttributed(prices: Prices, tasks: seq<TaskRef>, uses: Uses,
                                              usage: map<nat, UsageRow>, rows: map<(nat, string), ModelRow>)
    requires Stored(tasks, uses, prices, usage, rows)
    ensures StoredWorth(tasks, usage) == TasksWorth(Valued(prices, EVERY), tasks, uses)
  {
    if tasks != [] {
      FrontToBack(prices, UseOf(uses, tasks[0].id).models);
      StoredIsAttributed(prices, tasks[1..], uses, usage, rows);
    }
  }

  // ---- the stored rows of one model ----

  function Only(model: string): string -> bool {
    (name: string) => name == model
  }

  /** Tokens and cost stored for a model, over the tasks of a session. */
  function StoredModelWorth(tasks: seq<TaskRef>, rows: map<(nat, string), ModelRow>, model: string): Worth {
    if tasks == [] then NOTHING
    else RowWorth(rows, tasks[0].id, model).Plus(StoredModelWorth(tasks[1..], rows, model))
  }

  lemma AddsNothing(a: Worth)
    ensures a.Plus(NOTHING) == a && NOTHING.Plus(a) == a
  {
    assert a.tokens.Plus(NO_TOKENS) == a.tokens;
  }

  /** The valuation values one model only. */
  ghost predicate ValuesOnly(w: Valuation, model: string) {
    forall name, t: Tokens :: name != model ==> w(name, t) == NOTHING
  }

  function EntryWorth(w: Valuation, models: Models, model: string): Worth {
    match Get(models, model) case None => NOTHING case Some(t) => w(model, t)
  }

  lemma {:induction false} OtherModelsWorth(w: Valuation, models: Models, model: string)
    requires ValuesOnly(w, model) && forall i :: 0 <= i < |models| ==> models[i].0 != model
    ensures ModelsWorth(w, models) == NOTHING
  {
    if models != [] {
      OtherModelsWorth(w, models[1..], model);
      AddsNothing(w(models[0].0, models[0].1));
    }
  }

  lemma {:induction false} OneModelsWorth(w: Valuation, models: Models, model: string)
    requires DistinctKeys(models) && ValuesOnly(w, model)
    ensures ModelsWorth(w, models) == EntryWorth(w, models, model)
  {
    if models != [] {
      var head, rest := models[0], models[1..];
      if head.0 == model {
        OtherModelsWorth(w, rest, model);
        AddsNothing(w(model, head.1));
      } else {
        OneModelsWorth(w, rest, model);
        AddsNothing(ModelsWorth(w, rest));
        assert w(head.0, head.1) == NOTHING;
      }
    }
  }

  /** What is stored for one model of one task. */
  function RowWorth(rows: map<(nat, string), ModelRow>, id: nat, model: string): Worth {
    if (id, model) in rows then Worth(rows[(id, model)].tokens, rows[(id, model)].cost) else NOTHING
  }

  lemma StoredEntryWorth(prices: Prices, rows: map<(nat, string), ModelRow>, id: nat, models: Models, model: string)
    requires StoresModels(rows, id, prices, models)
    ensures RowWorth(rows, id, model) == EntryWorth(Valued(prices, Only(model)), models, model)
  {
    assert (id, model) in rows <==> Get(models, model).Some?;
  }

  lemma {:induction false} StoredModelIsAttributed(prices: Prices, tasks: seq<TaskRef>, uses: Uses,
                                                   usage: map<nat, UsageRow>, rows: map<(nat, string), ModelRow>,
                                                   model: string)
    requires Stored(tasks, uses, prices, usage, rows)
    requires forall i :: 0 <= i < |tasks| ==> DistinctKeys(UseOf(uses, tasks[i].id).models)
    ensures StoredModelWorth(tasks, rows, model) == TasksWorth(Valued(prices, Only(model)), tasks, uses)
  {
    if tasks != [] {
      var models := UseOf(uses, tasks[0].id).models;
      var w := Valued(prices, Only(model));
      assert ValuesOnly(w, model);
      OneModelsWorth(w, models, model);
      StoredEntryWorth(prices, rows, tasks[0].id, models, model);
      StoredModelIsAttributed(prices, tasks[1..], uses, usage, rows, model);
    }
  }

  /** The total is that of the four kinds. */
  predicate AddsUp(row: UsageRow) {
    row.totalTokens == row.totals.input + row.totals.output + row.totals.cacheCreation + row.totals.cacheRead
  }

  /**
   Summed over the session's tasks, the stored tokens and costs are those of the turns: in all, and for
   every single model.
   */
  ghost predicate StoresTurns(tasks: seq<TaskRef>, usage: map<nat, UsageRow>, rows: map<(nat, string), ModelRow>,
                              turns: seq<Turn>, prices: Prices) {
    && (forall i :: 0 <= i < |tasks| ==> tasks[i].id in usage && AddsUp(usage[tasks[i].id]))
    && StoredWorth(tasks, usage) == TurnsWorth(Valued(prices, EVERY), turns)
    && (forall model :: StoredModelWorth(tasks, rows, model) == TurnsWorth(Valued(prices, Only(model)), turns))
  }

  lemma {:induction false} AttributedKeysDistinct(tasks: seq<TaskRef>, turns: seq<Turn>, id: nat)
    requires tasks != []
    ensures DistinctKeys(UseOf(Attributed(tasks, turns), id).models)
  {
    if turns != [] {
      var last := turns[|turns| - 1];
      AttributedKeysDistinct(tasks, turns[..|turns| - 1], id);
      var u := UseOf(Attributed(tasks, turns[..|turns| - 1]), id);
      PutKeys(u.models, last.model, ModelTokens(u.models, last.model).Plus(last.tokens));
    }
  }

  /** What stores the attribution of the turns stores the turns. */
  lemma StoredTurns(prices: Prices, tasks: seq<TaskRef>, turns: seq<Turn>, usage: map<nat, UsageRow>,
                    rows: map<(nat, string), ModelRow>)
    requires tasks != [] && DistinctIds(tasks) && Stored(tasks, Attributed(tasks, turns), prices, usage, rows)
    ensures StoresTurns(tasks, usage, rows, turns, prices)
  {
    var uses := Attributed(tasks, turns);
    StoredIsAttributed(prices, tasks, uses, usage, rows);
    AttributionConserves(prices, EVERY, tasks, turns);
    forall model ensures StoredModelWorth(tasks, rows, model) == TurnsWorth(Valued(prices, Only(model)), turns) {
      StoredModelTurns(prices, tasks, turns, usage, rows, model);
    }
    forall i | 0 <= i < |tasks| ensures tasks[i].id in usage && AddsUp(usage[tasks[i].id]) {
      assert StoresUse(usage[tasks[i].id], prices, UseOf(uses, tasks[i].id));
    }
  }

  lemma StoredModelTurns(prices: Prices, tasks: seq<TaskRef>, turns: seq<Turn>, usage: map<nat, UsageRow>,
                         rows: map<(nat, string), ModelRow>, model: string)
    requires tasks != [] && DistinctIds(tasks) && Stored(tasks, Attributed(tasks, turns), prices, usage, rows)
    ensures StoredModelWorth(tasks, rows, model) == TurnsWorth(Valued(prices, Only(model)), turns)
  {
    var uses := Attributed(tasks, turns);
    forall i | 0 <= i < |tasks| ensures DistinctKeys(UseOf(uses, tasks[i].id).models) {
      AttributedKeysDistinct(tasks, turns, tasks[i].id);
    }
    StoredModelIsAttributed(prices, tasks, uses, usage, rows, model);
    AttributionConserves(prices, Only(model), tasks, turns);
  }

  /** The tokens of one kind stored for the session's tasks. */
  function StoredCount(kind: Kind, tasks: seq<TaskRef>, usage: map<nat, UsageRow>): int
    requires forall i :: 0 <= i < |tasks| ==> tasks[i].id in usage
  {
    if tasks == [] then 0 else CountOf(kind, usage[tasks[0].id].totals) + StoredCount(kind, tasks[1..], usage)
  }

  lemma {:induction false} StoredCountIs(kind: Kind, tasks: seq<TaskRef>, usage: map<nat, UsageRow>)
    requires forall i :: 0 <= i < |tasks| ==> tasks[i].id in usage
    ensures CountOf(kind, StoredWorth(tasks, usage).tokens) == StoredCount(kind, tasks, usage)
  {
    if tasks != [] {
      StoredCountIs(kind, tasks[1..], usage);
      CountAdds(kind, usage[tasks[0].id].totals, StoredWorth(tasks[1..], usage).tokens);
    }
  }

  /** After a backfill the stored columns hold exactly the tokens of the turns, kind by kind. */
  lemma KindsAreStored(prices: Prices, kind: Kind, tasks: seq<TaskRef>, turns: seq<Turn>, usage: map<nat, UsageRow>,
                       rows: map<(nat, string), ModelRow>)
    requires StoresTurns(tasks, usage, rows, turns, prices)
    ensures StoredCount(kind, tasks, usage) == TurnsCount(kind, turns)
  {
    StoredCountIs(kind, tasks, usage);
    EveryTokenIsWorth(prices);
    TurnsCountIs(Valued(prices, EVERY), kind, turns);
  }

  /**
   Backfilling a session with several tasks: the stored token totals and costs of its tasks add up
   to exactly the tokens and the cost of its turns, on first runs and on re-runs alike.
   */
  method BackfillTurns(store: UsageStore, tasks: seq<TaskRef>, turns: seq<Turn>, prices: Prices)
    requires tasks != [] && DistinctIds(tasks)
    modifies store
    ensures Stored(tasks, Attributed(tasks, turns), prices, store.usage, store.modelUsage)
    ensures StoresTurns(tasks, store.usage, store.modelUsage, turns, prices)
  {
    var uses := AttributeTurns(tasks, turns);
    forall id | id in uses ensures DistinctKeys(uses[id].models) {
      AttributedKeysDistinct(tasks, turns, id);
    }
    store.StoreAttribution(tasks, uses, prices);
    StoredTurns(prices, tasks, turns, store.usage, store.modelUsage);
  }

  /**
   One session of the backfill. Without several tasks and a list of turns, the session's own report
   goes to its first task, unless that task already has usage; otherwise the turns are attributed.
   */
  method BackfillSession(store: UsageStore, tasks: seq<TaskRef>, report: UsageReport, turns: Option<seq<Turn>>,
                         prices: Prices)
    returns (done: bool)
    requires DistinctIds(tasks) && DistinctKeys(report.models)
    modifies store
    ensures tasks == [] ==> !done
    ensures !done ==> store.usage == old(store.usage) && store.modelUsage == old(store.modelUsage)
    ensures var split := |tasks| > 1 && turns.Some? && turns.value != [];
            && (split ==> done && StoresTurns(tasks, store.usage, store.modelUsage, turns.value, prices))
            && (!split && tasks != [] ==>
                  && (done <==> tasks[0].id !in old(store.usage))
                  && (done ==> store.usage == old(store.usage)[tasks[0].id := ReportRow(report, prices)]
                               && SameElsewhere(store.modelUsage, old(store.modelUsage), tasks[0].id)
                               && (NamedByKey(report.models)
                                   ==> HoldsReport(store.usage, store.modelUsage, tasks[0].id, report, prices))))
  {
    if |tasks| == 0 {
      return false;
    }
    if |tasks| == 1 || turns.None? || |turns.value| == 0 {
      if tasks[0].id in store.usage {
        return false;
      }
      store.UpsertTaskUsage(tasks[0].id, report, prices);
      return true;
    }
    BackfillTurns(store, tasks, turns.value, prices);
    done := true;
  }
}
