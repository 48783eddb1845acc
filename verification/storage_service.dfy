/**
 * The browser's storage service (services/db.ts): five collections kept
 * either in localStorage or, when remote storage is switched on, in the
 * serverless key-value store reached through its HTTP function. It seeds
 * missing collections, resets the merchant list by a name-based rule, and
 * reads with an empty-list fallback.
 *
 * Serialisation is the identity on JSON values, so localStorage is a map
 * from key to document. A remote call is the handler of state.ts applied to
 * the remote table; transport and fetch are not modelled. `dbUp` says
 * whether the database behind the function answers.
 */
module StorageService {
  import opened Wrappers
  import opened Json
  import opened StateStore
  import opened StateHandler
  import opened Fixtures

  const MerchantsKey: string := "gt_db_merchants"
  const ProductsKey: string := "gt_db_products"
  const TransactionsKey: string := "gt_db_transactions"
  const CustomersKey: string := "gt_db_customers"
  const TicketsKey: string := "gt_db_tickets"

  const EmptyList: Json := JArr([])

  // ---------------------------------------------------------------------
  // localStorage
  // ---------------------------------------------------------------------

  /** `getLocal(key, fallback)`: the stored document, or the fallback when nothing is stored. */
  function LocalGet(items: map<string, Json>, key: string, fallback: Json): (r: Json)
    ensures key !in items ==> r == fallback
    ensures key in items ==> r == items[key]
  {
    if key in items then items[key] else fallback
  }

  /** The merchant record is named Des Kelly Interiors. */
  predicate IsDesKelly(m: Json) {
    Prop(m, "name") == Some(JStr(DesKelly))
  }

  /**
   * Whether some stored merchant is named Des Kelly Interiors. The scan stops
   * at the first match; reading `name` of a null element throws.
   */
  function DesKellyScan(ms: seq<Json>): (r: Result<bool>)
    ensures r == Ok(true) <==>
      exists i :: 0 <= i < |ms| && IsDesKelly(ms[i]) && forall j :: 0 <= j < i ==> ms[j] != JNull
    ensures r == Ok(false) <==> forall i :: 0 <= i < |ms| ==> ms[i] != JNull && !IsDesKelly(ms[i])
  {
    if |ms| == 0 then Ok(false)
    else if ms[0] == JNull then Thrown("TypeError: cannot read properties of null")
    else if IsDesKelly(ms[0]) then Ok(true)
    else
      DesKellyScan(ms[1..])
  }

  /**
   * Whether local init rewrites the merchant list: unless the stored list
   * holds a 'Des Kelly Interiors' merchant and is at least as long as the
   * fixture list. A stored value that is not an array has no `some` and throws.
   */
  function MerchantsNeedReset(items: map<string, Json>): Result<bool> {
    var arr := LocalGet(items, MerchantsKey, EmptyList);
    if !arr.JArr? then Thrown("TypeError: merchantsArr.some is not a function")
    else match DesKellyScan(arr.items)
      case Thrown(e) => Thrown(e)
      case Ok(present) => Ok(!present || |arr.items| < MockMerchantCount)
  }

  /** Store the seed under `key` only when nothing is stored there. */
  function SeedIfAbsent(items: map<string, Json>, key: string, seed: Json): map<string, Json> {
    if key in items then items else items[key := seed]
  }

  /** `StorageService.init` with remote storage switched off. */
  function InitLocal(items: map<string, Json>): Result<map<string, Json>> {
    var reset := MerchantsNeedReset(items);
    if reset.Thrown? then Thrown(reset.reason)
    else
      Ok(SeedAll(if reset.value then items[MerchantsKey := MockMerchants] else items))
  }

  /** The four ensure-if-absent writes of local init, in order. */
  function SeedAll(items: map<string, Json>): map<string, Json> {
    var s1 := SeedIfAbsent(items, ProductsKey, InitialProductsJson);
    var s2 := SeedIfAbsent(s1, CustomersKey, MockCustomers);
    var s3 := SeedIfAbsent(s2, TicketsKey, MockTickets);
    SeedIfAbsent(s3, TransactionsKey, EmptyList)
  }

  /** The seed init writes for each key. */
  function SeedFor(key: string): Json {
    if key == MerchantsKey then MockMerchants
    else if key == ProductsKey then InitialProductsJson
    else if key == CustomersKey then MockCustomers
    else if key == TicketsKey then MockTickets
    else EmptyList
  }

  /** No fixture merchant is 'Des Kelly Interiors', and none is null. */
  lemma MockMerchantsLackDesKelly()
    ensures DesKellyScan(MockMerchants.items) == Ok(false)
  {
    var ms := MockMerchants.items;
    forall i | 0 <= i < |ms| ensures ms[i] != JNull && !IsDesKelly(ms[i]) {
      assert ms[i].JObj? && "name" in ms[i].fields && ms[i].fields["name"] != JStr(DesKelly);
    }
  }

  /**
   * Local init keeps the stored merchants only when they hold a 'Des Kelly
   * Interiors' merchant (reached before any null) and number at least ten;
   * otherwise it writes the fixture list.
   */
  lemma InitMerchantsRule(items: map<string, Json>)
    requires InitLocal(items).Ok?
    ensures var arr := LocalGet(items, MerchantsKey, EmptyList);
      var r := InitLocal(items).value;
      arr.JArr? &&
      r[MerchantsKey] == if DesKellyScan(arr.items) == Ok(true) && |arr.items| >= 10 then items[MerchantsKey] else MockMerchants
  {
  }

  /** Init fails exactly when the stored merchants are not a list, or hold a null before any 'Des Kelly Interiors'. */
  lemma InitFailsOnlyOnBadMerchants(items: map<string, Json>)
    ensures InitLocal(items).Thrown? <==>
      MerchantsKey in items &&
      (!items[MerchantsKey].JArr? || DesKellyScan(items[MerchantsKey].items).Thrown?)
  {
  }

  /** Products, customers, tickets and transactions are written only when absent; other keys are untouched. */
  lemma InitSeedsOnlyAbsentKeys(items: map<string, Json>)
    requires InitLocal(items).Ok?
    ensures var r := InitLocal(items).value;
      (forall k :: k in {ProductsKey, CustomersKey, TicketsKey, TransactionsKey} ==>
         k in r && r[k] == if k in items then items[k] else SeedFor(k)) &&
      MerchantsKey in r &&
      (forall k :: k !in {MerchantsKey, ProductsKey, CustomersKey, TicketsKey, TransactionsKey} ==>
         (k in r <==> k in items) && (k in items ==> r[k] == items[k]))
  {
  }

  /** Running local init on its own result changes nothing. */
  lemma InitIdempotent(items: map<string, Json>)
    requires InitLocal(items).Ok?
    ensures InitLocal(InitLocal(items).value) == InitLocal(items)
  {
    var r := InitLocal(items).value;
    InitMerchantsRule(items);
    SeedAllIdempotent(if MerchantsNeedReset(items).value then items[MerchantsKey := MockMerchants] else items);
    assert SeedAll(r) == r;
    if r[MerchantsKey] == MockMerchants {
      MockMerchantsLackDesKelly();
      assert MerchantsNeedReset(r) == Ok(true);
      assert MerchantsKey in r;
      SelfUpdate(r, MerchantsKey);
    } else {
      assert MerchantsNeedReset(r) == Ok(false);
    }
  }

  lemma SelfUpdate(m: map<string, Json>, k: string)
    requires k in m
    ensures m[k := m[k]] == m
  {
  }

  lemma SeedAllIdempotent(items: map<string, Json>)
    ensures SeedAll(SeedAll(items)) == SeedAll(items)
  {
  }

  /** On an empty localStorage, init writes every seed. */
  lemma InitOnEmptyStore()
    ensures InitLocal(map[]) == Ok(map[MerchantsKey := MockMerchants, ProductsKey := InitialProductsJson,
                                       CustomersKey := MockCustomers, TicketsKey := MockTickets,
                                       TransactionsKey := EmptyList])
  {
    assert DesKellyScan([]) == Ok(false);
  }

  /** `saveLocal` then `getLocal` on the same key gives back what was saved. */
  lemma SaveThenGetLocal(items: map<string, Json>, key: string, data: Json, fallback: Json)
    ensures LocalGet(items[key := data], key, fallback) == data
  {
  }

  // ---------------------------------------------------------------------
  // The remote store, through the HTTP function
  // ---------------------------------------------------------------------

  predicate IsOk(status: int) {
    200 <= status <= 299
  }

  /**
   * `remoteFetch`: 404 is null, another non-ok status throws, an ok answer
   * gives `payload.data`. A GET never answers ok without data; `payload.data`
   * of such an answer is undefined, taken here as null.
   */
  function FetchOutcome(resp: Response): Result<Json> {
    if resp.status == 404 then Ok(JNull)
    else if !IsOk(resp.status) then Thrown("Failed to fetch from remote store")
    else match resp.payload
      case Data(d) => Ok(d)
      case _ => Ok(JNull)
  }

  function GetRequest(key: string): Request {
    Request("GET", Some(key), NoBody)
  }

  /** A PUT whose body is an object holding the document under `data`. */
  function PutRequest(key: string, data: Json): Request {
    Request("PUT", Some(key), Parsed(JObj(map["data" := data])))
  }

  function RemoteFetchOf(rows: map<string, Json>, key: string, dbUp: bool): Result<Json> {
    FetchOutcome(Dispatch(GetRequest(key), rows, dbUp).1)
  }

  /** `remoteSave`: the table after the PUT, or an error when the answer is not ok. */
  function RemoteSaveOf(rows: map<string, Json>, key: string, data: Json, dbUp: bool): Result<map<string, Json>> {
    var outcome := Dispatch(PutRequest(key, data), rows, dbUp);
    if IsOk(outcome.1.status) then Ok(outcome.0) else Thrown("Failed to persist to remote store")
  }

  /** `ensureRemote`: write the fallback only when the fetch reports null. */
  function EnsureRemoteOf(rows: map<string, Json>, key: string, fallback: Json, dbUp: bool): Result<map<string, Json>> {
    match RemoteFetchOf(rows, key, dbUp)
    case Thrown(e) => Thrown(e)
    case Ok(existing) => if existing == JNull then RemoteSaveOf(rows, key, fallback, dbUp) else Ok(rows)
  }

  /** `StorageService.init` with remote storage switched on; the five calls are taken one after another. */
  function InitRemote(rows: map<string, Json>, dbUp: bool): Result<map<string, Json>> {
    var r1 := EnsureRemoteOf(rows, MerchantsKey, MockMerchants, dbUp);
    if r1.Thrown? then r1 else
    var r2 := EnsureRemoteOf(r1.value, ProductsKey, InitialProductsJson, dbUp);
    if r2.Thrown? then r2 else
    var r3 := EnsureRemoteOf(r2.value, CustomersKey, MockCustomers, dbUp);
    if r3.Thrown? then r3 else
    var r4 := EnsureRemoteOf(r3.value, TicketsKey, MockTickets, dbUp);
    if r4.Thrown? then r4 else
    EnsureRemoteOf(r4.value, TransactionsKey, EmptyList, dbUp)
  }

  /** A remote getter: the fetched document, or [] when it is falsy. */
  function RemoteGetOf(rows: map<string, Json>, key: string, dbUp: bool): Result<Json> {
    match RemoteFetchOf(rows, key, dbUp)
    case Thrown(e) => Thrown(e)
    case Ok(d) => Ok(if Falsy(d) then EmptyList else d)
  }

  /**
   * What an answer of `remoteFetch` says about the response it came from: a
   * throw means neither 404 nor an ok status, and a non-null document can
   * only come from an ok answer that carries exactly that document.
   */
  lemma FetchOutcomeExplainsAnswer(resp: Response, d: Json)
    ensures FetchOutcome(resp).Thrown? <==> resp.status != 404 && !IsOk(resp.status)
    ensures FetchOutcome(resp) == Ok(d) && d != JNull ==> IsOk(resp.status) && resp.payload == Data(d)
  {
  }

  /** With the database up, a remote fetch reads the table: null for an absent key or a stored null. */
  lemma RemoteFetchReadsTable(rows: map<string, Json>, key: string, dbUp: bool)
    requires key != ""
    ensures dbUp ==> RemoteFetchOf(rows, key, dbUp) == Ok(ReadOf(rows, key))
    ensures !dbUp ==> RemoteFetchOf(rows, key, dbUp).Thrown?
  {
  }

  /** A fetch with an empty key is refused by the function with 400 and so throws. */
  lemma RemoteFetchEmptyKeyThrows(rows: map<string, Json>, dbUp: bool)
    ensures RemoteFetchOf(rows, "", dbUp).Thrown?
  {
  }

  /** With the database up, a remote save overwrites the key and nothing else. */
  lemma RemoteSaveWrites(rows: map<string, Json>, key: string, data: Json)
    requires key != ""
    ensures RemoteSaveOf(rows, key, data, true) == Ok(rows[key := data])
  {
    assert !LacksData(JObj(map["data" := data]));
  }

  /**
   * `ensureRemote` writes the fallback only when the key reads as null and
   * never overwrites a non-null document.
   */
  lemma EnsureRemoteSeedsOnlyMissing(rows: map<string, Json>, key: string, fallback: Json)
    requires key != ""
    ensures EnsureRemoteOf(rows, key, fallback, true) == Ok(Seeded(rows, key, fallback))
  {
    RemoteFetchReadsTable(rows, key, true);
    RemoteSaveWrites(rows, key, fallback);
  }

  /** A second `ensureRemote` with a non-null fallback changes nothing. */
  lemma EnsureRemoteIdempotent(rows: map<string, Json>, key: string, fallback: Json)
    requires key != "" && fallback != JNull
    ensures var r := EnsureRemoteOf(rows, key, fallback, true);
      r.Ok? && EnsureRemoteOf(r.value, key, fallback, true) == r
  {
    EnsureRemoteSeedsOnlyMissing(rows, key, fallback);
    var r := EnsureRemoteOf(rows, key, fallback, true).value;
    EnsureRemoteSeedsOnlyMissing(r, key, fallback);
  }

  /** One ensure-if-absent on the table: the fallback goes in only where the key reads as null. */
  function Seeded(rows: map<string, Json>, key: string, fallback: Json): map<string, Json> {
    if ReadOf(rows, key) == JNull then rows[key := fallback] else rows
  }

  /** With the database up, remote init is the five ensure-if-absent writes, one after another. */
  lemma InitRemoteSeedsMissing(rows: map<string, Json>)
    ensures InitRemote(rows, true) ==
      Ok(Seeded(Seeded(Seeded(Seeded(Seeded(rows, MerchantsKey, MockMerchants), ProductsKey, InitialProductsJson),
                                      CustomersKey, MockCustomers), TicketsKey, MockTickets), TransactionsKey, EmptyList))
  {
    EnsureRemoteSeedsOnlyMissing(rows, MerchantsKey, MockMerchants);
    var r1 := Seeded(rows, MerchantsKey, MockMerchants);
    EnsureRemoteSeedsOnlyMissing(r1, ProductsKey, InitialProductsJson);
    var r2 := Seeded(r1, ProductsKey, InitialProductsJson);
    EnsureRemoteSeedsOnlyMissing(r2, CustomersKey, MockCustomers);
    var r3 := Seeded(r2, CustomersKey, MockCustomers);
    EnsureRemoteSeedsOnlyMissing(r3, TicketsKey, MockTickets);
    var r4 := Seeded(r3, TicketsKey, MockTickets);
    EnsureRemoteSeedsOnlyMissing(r4, TransactionsKey, EmptyList);
  }

  /** With the database down, remote init fails at its first call. */
  lemma InitRemoteNeedsDatabase(rows: map<string, Json>)
    ensures InitRemote(rows, false).Thrown?
  {
    assert EnsureRemoteOf(rows, MerchantsKey, MockMerchants, false).Thrown?;
  }

  /** Remote getters give [] for a key that is absent or holds a falsy document, and the document otherwise. */
  lemma RemoteGetFallsBack(rows: map<string, Json>, key: string)
    requires key != ""
    ensures key !in rows ==> RemoteGetOf(rows, key, true) == Ok(EmptyList)
    ensures key in rows && !Falsy(rows[key]) ==> RemoteGetOf(rows, key, true) == Ok(rows[key])
  {
    RemoteFetchReadsTable(rows, key, true);
  }

  // ---------------------------------------------------------------------
  // The stores as state
  // ---------------------------------------------------------------------

  /** The browser's localStorage. */
  class LocalStore {
    var items: map<string, Json>

    constructor (initial: map<string, Json>)
      ensures items == initial
    {
      items := initial;
    }

    method GetLocal(key: string, fallback: Json) returns (v: Json)
      ensures v == LocalGet(items, key, fallback)
    {
      if key !in items {
        return fallback;
      }
      v := items[key];
    }

    method SaveLocal(key: string, data: Json)
      modifies this
      ensures items == old(items)[key := data]
    {
      items := items[key := data];
    }

    /** Local init: the merchant rule, then the four seeds, one key after another. */
    method Init() returns (r: Result<()>)
      modifies this
      ensures InitLocal(old(items)).Thrown? ==> r.Thrown? && items == old(items)
      ensures InitLocal(old(items)).Ok? ==> r.Ok? && items == InitLocal(old(items)).value
    {
      var merchantsArr := GetLocal(MerchantsKey, EmptyList);
      if !merchantsArr.JArr? {
        return Thrown("TypeError: merchantsArr.some is not a function");
      }
      var scan := DesKellyScan(merchantsArr.items);
      if scan.Thrown? {
        return Thrown(scan.reason);
      }
      if !scan.value || |merchantsArr.items| < MockMerchantCount {
        SaveLocal(MerchantsKey, MockMerchants);
      }
      if ProductsKey !in items {
        SaveLocal(ProductsKey, InitialProductsJson);
      }
      if CustomersKey !in items {
        SaveLocal(CustomersKey, MockCustomers);
      }
      if TicketsKey !in items {
        SaveLocal(TicketsKey, MockTickets);
      }
      if TransactionsKey !in items {
        SaveLocal(TransactionsKey, EmptyList);
      }
      return Ok(());
    }
  }

  /** `StorageService.init`: the five remote seeds, or local init. */
  method Init(remote: bool, local: LocalStore, table: StateTable, dbUp: bool) returns (r: Result<()>)
    modifies local, table
    ensures remote ==> local.items == old(local.items)
    ensures remote && InitRemote(old(table.rows), dbUp).Ok? ==>
      r.Ok? && table.rows == InitRemote(old(table.rows), dbUp).value
    ensures remote && InitRemote(old(table.rows), dbUp).Thrown? ==> r.Thrown? && table.rows == old(table.rows)
    ensures !remote && InitLocal(old(local.items)).Ok? ==>
      r.Ok? && local.items == InitLocal(old(local.items)).value && table.rows == old(table.rows)
    ensures !remote && InitLocal(old(local.items)).Thrown? ==>
      r.Thrown? && local.items == old(local.items) && table.rows == old(table.rows)
  {
    if !remote {
      r := local.Init();
      return;
    }
    if dbUp {
      InitRemoteSeedsMissing(table.rows);
    } else {
      InitRemoteNeedsDatabase(table.rows);
    }
    r := EnsureRemote(table, MerchantsKey, MockMerchants, dbUp);
    if r.Thrown? { return; }
    r := EnsureRemote(table, ProductsKey, InitialProductsJson, dbUp);
    if r.Thrown? { return; }
    r := EnsureRemote(table, CustomersKey, MockCustomers, dbUp);
    if r.Thrown? { return; }
    r := EnsureRemote(table, TicketsKey, MockTickets, dbUp);
    if r.Thrown? { return; }
    r := EnsureRemote(table, TransactionsKey, EmptyList, dbUp);
  }

  method RemoteFetch(table: StateTable, key: string, dbUp: bool) returns (r: Result<Json>)
    modifies table
    ensures r == RemoteFetchOf(old(table.rows), key, dbUp) && table.rows == old(table.rows)
  {
    var resp := Handle(table, GetRequest(key), dbUp);
    if resp.status == 404 {
      return Ok(JNull);
    }
    if !IsOk(resp.status) {
      return Thrown("Failed to fetch from remote store");
    }
    if resp.payload.Data? {
      return Ok(resp.payload.data);
    }
    return Ok(JNull);
  }

  method RemoteSave(table: StateTable, key: string, data: Json, dbUp: bool) returns (r: Result<()>)
    modifies table
    ensures RemoteSaveOf(old(table.rows), key, data, dbUp).Ok? ==>
      r.Ok? && table.rows == RemoteSaveOf(old(table.rows), key, data, dbUp).value
    ensures RemoteSaveOf(old(table.rows), key, data, dbUp).Thrown? ==> r.Thrown? && table.rows == old(table.rows)
  {
    var resp := Handle(table, PutRequest(key, data), dbUp);
    if !IsOk(resp.status) {
      return Thrown("Failed to persist to remote store");
    }
    return Ok(());
  }

  method EnsureRemote(table: StateTable, key: string, fallback: Json, dbUp: bool) returns (r: Result<()>)
    modifies table
    ensures EnsureRemoteOf(old(table.rows), key, fallback, dbUp).Ok? ==>
      r.Ok? && table.rows == EnsureRemoteOf(old(table.rows), key, fallback, dbUp).value
    ensures EnsureRemoteOf(old(table.rows), key, fallback, dbUp).Thrown? ==> r.Thrown? && table.rows == old(table.rows)
  {
    var existing := RemoteFetch(table, key, dbUp);
    if existing.Thrown? {
      return Thrown(existing.reason);
    }
    if existing.value == JNull {
      r := RemoteSave(table, key, fallback, dbUp);
    } else {
      r := Ok(());
    }
  }

  /** A getter (`getMerchants`, `getProducts`, `getTransactions`, `getCustomers`, `getTickets`) for its key. */
  method GetCollection(remote: bool, local: LocalStore, table: StateTable, key: string, dbUp: bool)
    returns (r: Result<Json>)
    modifies table
    ensures table.rows == old(table.rows)
    ensures remote ==> r == RemoteGetOf(old(table.rows), key, dbUp)
    ensures !remote ==> r == Ok(LocalGet(local.items, key, EmptyList))
  {
    if remote {
      var fetched := RemoteFetch(table, key, dbUp);
      if fetched.Thrown? {
        return fetched;
      }
      return Ok(if Falsy(fetched.value) then EmptyList else fetched.value);
    }
    var v := local.GetLocal(key, EmptyList);
    return Ok(v);
  }

  /** A saver (`saveMerchants`, `saveProducts`, `saveTransactions`) for its key. */
  method SaveCollection(remote: bool, local: LocalStore, table: StateTable, key: string, data: Json, dbUp: bool)
    returns (r: Result<()>)
    modifies local, table
    ensures remote ==> local.items == old(local.items)
    ensures remote && RemoteSaveOf(old(table.rows), key, data, dbUp).Ok? ==>
      r.Ok? && table.rows == RemoteSaveOf(old(table.rows), key, data, dbUp).value
    ensures remote && RemoteSaveOf(old(table.rows), key, data, dbUp).Thrown? ==> r.Thrown? && table.rows == old(table.rows)
    ensures !remote ==> r.Ok? && local.items == old(local.items)[key := data] && table.rows == old(table.rows)
  {
    if remote {
      r := RemoteSave(table, key, data, dbUp);
      return;
    }
    local.SaveLocal(key, data);
    return Ok(());
  }
}
