/** The three summary cards of the cold-storage list screen: the number of
    store admins (cold storages), the registered farmers summed over them, and
    the number of active admins. The screen exists in two copies that compute
    the same three figures; both are modelled by these definitions. */
module ColdStorageMetrics {
  import opened JsStrings
  import opened Inventory

  datatype StoreAdmin = StoreAdmin(id: string, name: string, registeredFarmers: seq<string>, isActive: bool)

  /** The response body; `storeAdmins` may be absent. */
  datatype ColdStorageResponse = ColdStorageResponse(storeAdmins: Option<seq<StoreAdmin>>)

  datatype Metrics = Metrics(totalColdStorages: int, totalRegisteredFarmers: int, totalActiveStoreAdmins: int)

  function FarmerCount(a: StoreAdmin): int { |a.registeredFarmers| }

  /** `admins.filter(admin => admin.isActive).length`. */
  function CountActive(admins: seq<StoreAdmin>): (n: nat)
    ensures n <= |admins|
    ensures n == |admins| <==> forall i :: 0 <= i < |admins| ==> admins[i].isActive
    ensures n == 0 <==> forall i :: 0 <= i < |admins| ==> !admins[i].isActive
    decreases |admins|
  {
    if admins == [] then 0
    else CountActive(admins[..|admins| - 1]) + (if admins[|admins| - 1].isActive then 1 else 0)
  }

  /** The three cards; each is `|| 0`, so missing data shows 0. */
  function SummaryMetrics(data: Option<ColdStorageResponse>): (m: Metrics)
    ensures 0 <= m.totalActiveStoreAdmins <= m.totalColdStorages
    ensures m.totalRegisteredFarmers >= 0
  {
    if data.None? || data.value.storeAdmins.None? then Metrics(0, 0, 0)
    else
      var admins := data.value.storeAdmins.value;
      SumOfNonNegative(admins, FarmerCount);
      Metrics(|admins|, SumOf(admins, FarmerCount), CountActive(admins))
  }

  /** Without a response, or without the admin list, every card shows 0. */
  lemma MissingDataIsZero(data: Option<ColdStorageResponse>)
    requires data.None? || data.value.storeAdmins.None?
    ensures SummaryMetrics(data) == Metrics(0, 0, 0)
  {
  }

  /** The figures for two lists of admins shown together: the counts and the
      registered-farmer total add up. */
  lemma MetricsAdditive(a: seq<StoreAdmin>, b: seq<StoreAdmin>)
    ensures var m, ma, mb := SummaryMetrics(Some(ColdStorageResponse(Some(a + b)))),
                             SummaryMetrics(Some(ColdStorageResponse(Some(a)))),
                             SummaryMetrics(Some(ColdStorageResponse(Some(b))));
      m.totalColdStorages == ma.totalColdStorages + mb.totalColdStorages &&
      m.totalRegisteredFarmers == ma.totalRegisteredFarmers + mb.totalRegisteredFarmers &&
      m.totalActiveStoreAdmins == ma.totalActiveStoreAdmins + mb.totalActiveStoreAdmins
  {
    SumOfAppend(a, b, FarmerCount);
    CountActiveAppend(a, b);
  }

  lemma {:induction false} CountActiveAppend(a: seq<StoreAdmin>, b: seq<StoreAdmin>)
    ensures CountActive(a + b) == CountActive(a) + CountActive(b)
    decreases |b|
  {
    if b == [] {
      assert a + b == a;
    } else {
      var b' := b[..|b| - 1];
      assert (a + b)[..|a + b| - 1] == a + b';
      CountActiveAppend(a, b');
    }
  }
}
