/**
 * The compare list: at most three vehicle IDs kept in localStorage under
 * `carinsight_compare`, and the "best value" highlights of a comparison.
 */
module Compare {
  import opened Wrappers
  import opened IdLists

  const MAX_VEHICLES: nat := 3

  const MSG_DUPLICATE := "Veículo já está na comparação"
  const MSG_FULL := "Máximo de 3 veículos para comparar"
  const MSG_ADDED := "Adicionado à comparação"
  const MSG_REMOVED := "Removido da comparação"

  /**
   * The localStorage slot of the compare list. Every operation reads the
   * slot afresh and writes the whole list back, as the source does.
   */
  class CompareManager {
    var store: Entry

    constructor (initial: Entry)
      ensures store == initial
    {
      store := initial;
    }

    /** `getCompareList`: the stored IDs, `[]` when absent or unreadable. */
    function List(): (ids: seq<string>)
      reads this
      ensures store.Stored? ==> ids == store.ids
      ensures !store.Stored? ==> ids == []
    {
      ReadList(store)
    }

    /** What `add` keeps true: no duplicates and no more than three IDs. */
    predicate Valid()
      reads this
    {
      NoDup(List()) && |List()| <= MAX_VEHICLES
    }

    /** `isInCompare`: `includes` on the stored list. */
    function IsInCompare(vehicleId: string): (present: bool)
      reads this
      ensures present <==> IndexOf(List(), vehicleId) >= 0
    {
      vehicleId in List()
    }

    /** `getCount`: the length of the stored list. */
    function Count(): (n: nat)
      reads this
      ensures Valid() ==> n <= MAX_VEHICLES
      ensures n == 0 <==> List() == []
    {
      |List()|
    }

    /**
     * `add`: refuses an ID already present, then refuses when the list
     * already holds three or more; otherwise appends and writes back.
     */
    method Add(vehicleId: string) returns (success: bool, message: string)
      modifies this
      ensures success <==> vehicleId !in old(List()) && |old(List())| < MAX_VEHICLES
      ensures success ==> List() == old(List()) + [vehicleId] && message == MSG_ADDED
      ensures !success ==> store == old(store)
      ensures !success && vehicleId in old(List()) ==> message == MSG_DUPLICATE
      ensures !success && vehicleId !in old(List()) ==> message == MSG_FULL
      ensures |List()| <= MAX_VEHICLES || List() == old(List())
      ensures old(Valid()) ==> Valid()
    {
      var list := ReadList(store);
      if vehicleId in list {
        return false, MSG_DUPLICATE;
      }
      if |list| >= MAX_VEHICLES {
        return false, MSG_FULL;
      }
      if NoDup(list) {
        AppendKeepsNoDup(list, vehicleId);
      }
      list := list + [vehicleId];
      store := Stored(list);
      success, message := true, MSG_ADDED;
    }

    /**
     * `remove`: splices out the first occurrence and writes back; an absent
     * ID writes nothing and reports false.
     */
    method Remove(vehicleId: string) returns (removed: bool)
      modifies this
      ensures removed <==> vehicleId in old(List())
      ensures List() == RemoveFirst(old(List()), vehicleId)
      ensures !removed ==> store == old(store)
      ensures old(Valid()) ==> Valid() && vehicleId !in List()
    {
      var list := ReadList(store);
      var index := IndexOf(list, vehicleId);
      if index > -1 {
        if NoDup(list) {
          RemoveFirstKeepsNoDup(list, vehicleId);
        }
        list := list[..index] + list[index + 1..];
        store := Stored(list);
        return true;
      }
      return false;
    }

    /**
     * `toggle`: removes a present ID; otherwise tries `add` and reports its
     * success as the new membership (false, list unchanged, at the cap).
     */
    method Toggle(vehicleId: string) returns (inCompare: bool, message: string)
      modifies this
      ensures vehicleId in old(List()) ==>
                !inCompare && message == MSG_REMOVED && List() == RemoveFirst(old(List()), vehicleId)
      ensures vehicleId !in old(List()) ==>
                inCompare == (|old(List())| < MAX_VEHICLES) &&
                List() == (if inCompare then old(List()) + [vehicleId] else old(List()))
      ensures vehicleId !in old(List()) ==> message == (if inCompare then MSG_ADDED else MSG_FULL)
      ensures vehicleId !in old(List()) && !inCompare ==> store == old(store)
      ensures old(Valid()) ==> Valid() && (inCompare <==> vehicleId in List())
    {
      if IsInCompare(vehicleId) {
        var _ := Remove(vehicleId);
        inCompare, message := false, MSG_REMOVED;
      } else {
        inCompare, message := Add(vehicleId);
      }
    }

    /** `clear`: writes the empty list. */
    method Clear()
      modifies this
      ensures store == Stored([]) && List() == [] && Valid()
    {
      store := Stored([]);
    }

    /**
     * `getCompareVehicles`: the vehicles whose fetch succeeded, in list
     * order; `fetch` stands for `CarInsightAPI.getVehicle`.
     */
    method GetCompareVehicles(fetch: string -> Option<Vehicle>) returns (vehicles: seq<Vehicle>)
      ensures vehicles == FetchEach(List(), fetch)
      ensures |vehicles| <= |List()|
      ensures Valid() ==> |vehicles| <= MAX_VEHICLES
    {
      var compareIds := ReadList(store);
      if |compareIds| == 0 {
        return [];
      }
      vehicles := FetchEach(compareIds, fetch);
    }
  }

  /** The fields of a vehicle record that a comparison looks at. */
  datatype Vehicle = Vehicle(id: string, price: int, mileage: int, yearModel: int)

  /** The three criteria, in the order the source visits them. */
  datatype Criterion = Price | Mileage | YearModel

  const CRITERIA: seq<Criterion> := [Price, Mileage, YearModel]

  function Value(v: Vehicle, key: Criterion): int {
    match key
    case Price => v.price
    case Mileage => v.mileage
    case YearModel => v.yearModel
  }

  /** Price and mileage are better when lower, the model year when higher. */
  predicate LowerIsBetter(key: Criterion) {
    key == Price || key == Mileage
  }

  /** `a` beats `b` on `key`, strictly. */
  predicate Beats(key: Criterion, a: int, b: int) {
    if LowerIsBetter(key) then a < b else a > b
  }

  /**
   * `i` is the first index of a best value: nobody beats it, and it beats
   * everyone before it.
   */
  predicate IsFirstBest(vehicles: seq<Vehicle>, key: Criterion, i: int) {
    && 0 <= i < |vehicles|
    && (forall j :: 0 <= j < |vehicles| ==> !Beats(key, Value(vehicles[j], key), Value(vehicles[i], key)))
    && (forall j :: 0 <= j < i ==> Beats(key, Value(vehicles[i], key), Value(vehicles[j], key)))
  }

  /** The highlight of one criterion: where the best vehicle is, and its ID. */
  datatype Highlight = Highlight(bestIndex: nat, bestVehicleId: string)

  datatype Comparison = Comparison(vehicles: seq<Vehicle>, highlights: map<Criterion, Highlight>)

  /**
   * The inner loop of `generateComparison`: start from index 0 and move
   * to a later vehicle only when it strictly beats the best so far.
   */
  method BestIndex(vehicles: seq<Vehicle>, key: Criterion) returns (bestIndex: nat)
    requires |vehicles| > 0
    ensures IsFirstBest(vehicles, key, bestIndex)
  {
    bestIndex := 0;
    var bestValue := Value(vehicles[0], key);
    for i := 0 to |vehicles|
      invariant bestIndex < |vehicles| && bestValue == Value(vehicles[bestIndex], key)
      invariant bestIndex <= i
      invariant forall j :: 0 <= j < i ==> !Beats(key, Value(vehicles[j], key), bestValue)
      invariant forall j :: 0 <= j < bestIndex ==> Beats(key, bestValue, Value(vehicles[j], key))
    {
      var v := Value(vehicles[i], key);
      if Beats(key, v, bestValue) {
        bestValue := v;
        bestIndex := i;
      }
    }
  }

  /**
   * `generateComparison`: null for fewer than two vehicles; otherwise the
   * vehicles with, for each criterion, the first index holding its best value.
   */
  method GenerateComparison(vehicles: seq<Vehicle>) returns (result: Option<Comparison>)
    ensures result.None? <==> |vehicles| < 2
    ensures result.Some? ==> result.value.vehicles == vehicles
    ensures result.Some? ==> result.value.highlights.Keys == {Price, Mileage, YearModel}
    ensures result.Some? ==> forall key :: key in result.value.highlights ==>
              var h := result.value.highlights[key];
              IsFirstBest(vehicles, key, h.bestIndex) && h.bestVehicleId == vehicles[h.bestIndex].id
  {
    if |vehicles| < 2 {
      return None;
    }
    var highlights: map<Criterion, Highlight> := map[];
    for c := 0 to |CRITERIA|
      invariant highlights.Keys == set k | k in CRITERIA[..c]
      invariant forall key :: key in highlights ==>
                  IsFirstBest(vehicles, key, highlights[key].bestIndex) &&
                  highlights[key].bestVehicleId == vehicles[highlights[key].bestIndex].id
    {
      var key := CRITERIA[c];
      var bestIndex := BestIndex(vehicles, key);
      highlights := highlights[key := Highlight(bestIndex, vehicles[bestIndex].id)];
    }
    assert CRITERIA[..3] == CRITERIA;
    return Some(Comparison(vehicles, highlights));
  }
}
