/**
  The fuel estimator of `src/components/FuelEstimator.tsx` as a state machine
  over its React state. Each handler is a function from the state before it to
  the state after it settles; what a `fetch` returned is a parameter, and so is
  `parseFloat`. Numbers are exact reals; `null` is `None`.
 */
module FuelEstimator {
  import opened Wrappers

  datatype State = State(
    brands: seq<string>,
    models: seq<string>,
    fuels: seq<string>,
    brand: string,
    model: string,
    fuel: string,
    distanceKm: string,
    fuelPrice: string,
    mileage: Option<real>,
    cost: Option<real>,
    loading: bool,
    error: Option<string>)

  /** The state on mount, before the brand list arrives. */
  const Initial: State :=
    State([], [], [], "", "", "", "", "", None, None, false, None)

  /** The `mileage` field of the JSON reply: a number, some other JSON value, or
      missing (also when the reply itself is `null`). */
  datatype MileageField = Number(number: real) | NotANumber | Absent

  /** What the `/mileage` request produced: the reply's `mileage` field, or a
      failed request (a network error or a body that is not JSON). */
  datatype MileageReply = Reply(field: MileageField) | RequestFailed

  const MileageError := "Failed to fetch mileage"

  /** `data || []` for a list fetch: None stands for a failed request or a falsy reply. */
  function ListOrEmpty(fetched: Option<seq<string>>): seq<string> {
    fetched.GetOr([])
  }

  /** `onBrandChange`: select a brand, clear everything chosen below it, then store
      the model list fetched for it. */
  function OnBrandChange(s: State, value: string, fetchedModels: Option<seq<string>>): (r: State)
    ensures r.brand == value
    ensures r.model == "" && r.fuel == "" && r.fuels == []
    ensures r.models == (if fetchedModels.Some? then fetchedModels.value else [])
    ensures r.mileage == None && r.cost == None && r.error == None
    // the brand list, the typed inputs and the loading flag are untouched
    ensures r.brands == s.brands && r.distanceKm == s.distanceKm && r.fuelPrice == s.fuelPrice
    ensures r.loading == s.loading
  {
    s.(brand := value, model := "", fuel := "", models := ListOrEmpty(fetchedModels), fuels := [],
       mileage := None, cost := None, error := None)
  }

  /** `onModelChange`: select a model, clear the fuel choice, then store the fuel
      list fetched for the brand and model. */
  function OnModelChange(s: State, value: string, fetchedFuels: Option<seq<string>>): (r: State)
    ensures r.model == value
    ensures r.brand == s.brand && r.models == s.models
    ensures r.fuel == "" && r.fuels == (if fetchedFuels.Some? then fetchedFuels.value else [])
    ensures r.mileage == None && r.cost == None && r.error == None
    ensures r.brands == s.brands && r.distanceKm == s.distanceKm && r.fuelPrice == s.fuelPrice
    ensures r.loading == s.loading
  {
    s.(model := value, fuel := "", fuels := ListOrEmpty(fetchedFuels),
       mileage := None, cost := None, error := None)
  }

  /** The fuel select and the two text inputs store what was chosen or typed. */
  function OnFuelChange(s: State, value: string): State {
    s.(fuel := value)
  }

  function OnDistanceChange(s: State, value: string): State {
    s.(distanceKm := value)
  }

  function OnFuelPriceChange(s: State, value: string): State {
    s.(fuelPrice := value)
  }

  /** The settled state after `fetchMileage`, and the value it resolves to. */
  datatype Fetched = Fetched(state: State, result: Option<real>)

  /** `fetchMileage`: nothing happens unless brand, model and fuel are all chosen;
      otherwise clear mileage, cost and error, and keep the reply's mileage only
      when `typeof` says it is a number. */
  function FetchMileage(s: State, reply: MileageReply): (r: Fetched)
    ensures s.brand == "" || s.model == "" || s.fuel == "" ==> r == Fetched(s, None)
    ensures s.brand != "" && s.model != "" && s.fuel != "" ==>
      && r.state.mileage == r.result
      && r.state.cost == None
      && !r.state.loading
      && (reply.Reply? ==>
            r.result == (if reply.field.Number? then Some(reply.field.number) else None)
            && r.state.error == None)
      && (reply.RequestFailed? ==> r.result == None && r.state.error == Some(MileageError))
      && r.state == s.(mileage := r.state.mileage, cost := None, loading := false, error := r.state.error)
  {
    if s.brand == "" || s.model == "" || s.fuel == "" then Fetched(s, None)
    else
      var pending := s.(loading := true, error := None, mileage := None, cost := None);
      match reply
      case Reply(field) =>
        var m := if field.Number? then Some(field.number) else None;
        Fetched(pending.(mileage := m, loading := false), m)
      case RequestFailed => Fetched(pending.(error := Some(MileageError), loading := false), None)
  }

  /** Rounds a non-negative amount to the nearest hundredth, halves upwards. */
  function RoundMagnitude(y: real): (r: real)
    requires 0.0 <= y
    ensures -0.005 < r - y <= 0.005
    ensures (r * 100.0).Floor as real == r * 100.0
  {
    var n := (y * 100.0 + 0.5).Floor;
    var r := n as real / 100.0;
    assert r * 100.0 == n as real;
    assert n as real <= y * 100.0 + 0.5 < n as real + 1.0;
    assert -0.5 < r * 100.0 - y * 100.0 <= 0.5;
    r
  }

  /** `total.toFixed(2)` read back by `parseFloat`: the magnitude rounded to two
      decimals, halves away from zero, sign kept. */
  function Round2(x: real): (r: real)
    // halves are rounded away from zero
    ensures x >= 0.0 ==> -0.005 < r - x <= 0.005
    ensures x < 0.0 ==> -0.005 <= r - x < 0.005
    ensures (r * 100.0).Floor as real == r * 100.0
  {
    if x >= 0.0 then RoundMagnitude(x)
    else
      var m := RoundMagnitude(-x);
      var n := (m * 100.0).Floor;
      assert (-m) * 100.0 == (-n) as real;
      assert ((-n) as real).Floor == -n;
      -m
  }

  /** The cost `onSearch` displays: `(km / mileage) * price`, rounded. */
  function TripCost(km: real, mileage: real, price: real): real
    requires mileage != 0.0
  {
    Round2((km / mileage) * price)
  }

  /** `onSearch`: fetch the mileage, then compute the cost only when the mileage is
      present and positive, both inputs are non-empty and both parse as numbers.
      `parse` is `parseFloat`, with None for `NaN`. */
  function OnSearch(s: State, reply: MileageReply, parse: string -> Option<real>): (r: State)
    // with brand, model or fuel missing nothing happens
    ensures s.brand == "" || s.model == "" || s.fuel == "" ==> r == s
    // otherwise a cost is shown exactly when the mileage is positive and both inputs parse
    ensures s.brand != "" && s.model != "" && s.fuel != "" ==>
      (r.cost.Some? <==>
        && reply.Reply? && reply.field.Number? && reply.field.number > 0.0
        && s.distanceKm != "" && s.fuelPrice != ""
        && parse(s.distanceKm).Some? && parse(s.fuelPrice).Some?)
    ensures s.brand != "" && s.model != "" && s.fuel != "" && r.cost.Some? ==>
      r.cost.value == TripCost(parse(s.distanceKm).value, reply.field.number, parse(s.fuelPrice).value)
    // and apart from the cost, the state is the one `fetchMileage` settled in
    ensures s.brand != "" && s.model != "" && s.fuel != "" ==>
      r == FetchMileage(s, reply).state.(cost := r.cost)
    ensures r.brand == s.brand && r.model == s.model && r.fuel == s.fuel
    ensures r.distanceKm == s.distanceKm && r.fuelPrice == s.fuelPrice
  {
    var fetched := FetchMileage(s, reply);
    var after := fetched.state;
    match fetched.result
    case Some(m) =>
      if m != 0.0 && s.distanceKm != "" && s.fuelPrice != "" then
        var km := parse(s.distanceKm);
        var price := parse(s.fuelPrice);
        if km.Some? && price.Some? && m > 0.0 then
          after.(cost := Some(TripCost(km.value, m, price.value)))
        else after
      else after
    case None => after
  }

  /** `resetAll`: every selection, input and result back to empty. Only the brand
      list and the loading flag are kept. */
  function ResetAll(s: State): (r: State)
    ensures r == Initial.(brands := s.brands, loading := s.loading)
  {
    s.(brand := "", model := "", fuel := "", models := [], fuels := [],
       distanceKm := "", fuelPrice := "", mileage := None, cost := None, error := None)
  }

  /** After any handler that clears the cost, the only way to a cost is a search. */
  lemma SelectionChangesClearCost(s: State, value: string, fetched: Option<seq<string>>)
    ensures OnBrandChange(s, value, fetched).cost == None
    ensures OnModelChange(s, value, fetched).cost == None
    ensures ResetAll(s).cost == None
  {
  }

  /** A search with a complete selection over a reply whose mileage is a number
      shows that number, whatever its sign, and no error. */
  lemma SearchShowsMileage(s: State, m: real, parse: string -> Option<real>)
    requires s.brand != "" && s.model != "" && s.fuel != ""
    ensures OnSearch(s, Reply(Number(m)), parse).mileage == Some(m)
    ensures OnSearch(s, Reply(Number(m)), parse).error == None
  {
  }

  /** Choosing another fuel keeps the mileage and cost shown for the previous one
      until the next search. */
  lemma FuelChangeKeepsResult(s: State, value: string)
    ensures OnFuelChange(s, value).mileage == s.mileage
    ensures OnFuelChange(s, value).cost == s.cost
  {
  }

  /** The user actions of the component, with what their requests returned. */
  datatype Event =
    | BrandChange(brandValue: string, fetchedModels: Option<seq<string>>)
    | ModelChange(modelValue: string, fetchedFuels: Option<seq<string>>)
    | FuelChange(fuelValue: string)
    | DistanceChange(distanceValue: string)
    | FuelPriceChange(priceValue: string)
    | Search(reply: MileageReply)
    | Reset

  function Step(s: State, e: Event, parse: string -> Option<real>): State {
    match e
    case BrandChange(v, fetched) => OnBrandChange(s, v, fetched)
    case ModelChange(v, fetched) => OnModelChange(s, v, fetched)
    case FuelChange(v) => OnFuelChange(s, v)
    case DistanceChange(v) => OnDistanceChange(s, v)
    case FuelPriceChange(v) => OnFuelPriceChange(s, v)
    case Search(reply) => OnSearch(s, reply, parse)
    case Reset => ResetAll(s)
  }

  /** A cost is only ever shown together with the positive mileage it was computed from. */
  predicate CostHasMileage(s: State) {
    s.cost.Some? ==> s.mileage.Some? && s.mileage.value > 0.0
  }

  /** Every handler keeps `CostHasMileage`. */
  lemma StepKeepsCostHasMileage(s: State, e: Event, parse: string -> Option<real>)
    requires CostHasMileage(s)
    ensures CostHasMileage(Step(s, e, parse))
  {
    match e
    case Search(reply) =>
      var r := OnSearch(s, reply, parse);
      if s.brand != "" && s.model != "" && s.fuel != "" && r.cost.Some? {
        assert FetchMileage(s, reply).state.mileage == Some(reply.field.number);
      }
    case _ =>
  }

  /** From the initial state, every sequence of events keeps `CostHasMileage`. */
  lemma {:induction false} RunKeepsCostHasMileage(events: seq<Event>, parse: string -> Option<real>)
    ensures CostHasMileage(Run(Initial, events, parse))
    decreases |events|
  {
    if events != [] {
      var n := |events| - 1;
      RunKeepsCostHasMileage(events[..n], parse);
      StepKeepsCostHasMileage(Run(Initial, events[..n], parse), events[n], parse);
    }
  }

  /** The state after handling `events` in order. */
  function Run(s: State, events: seq<Event>, parse: string -> Option<real>): State
    decreases |events|
  {
    if events == [] then s
    else Step(Run(s, events[..|events| - 1], parse), events[|events| - 1], parse)
  }
}
