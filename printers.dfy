/**
 * The printer routes (server/src/routes/printers.py) over the `printers` table and the
 * `printer_metrics` rows that belong to each printer: proxy devices register printers,
 * users read, edit and delete their own.
 */
module Printers {
  import opened Wrappers
  import opened Text
  import opened Http
  import opened Tables

  datatype Printer = Printer(
    id: int, userId: int, deviceId: int, ip: string, name: string,
    location: Option<string>, model: Option<string>, manufacturer: Option<string>,
    serialNumber: Option<string>, connectionStatus: string, lastSeenAt: Option<int>,
    createdAt: int, updatedAt: int)

  /** A `printer_metrics` row; only its owner link matters to these routes. */
  datatype Metric = Metric(
    id: int, printerId: int, timestamp: int, totalPages: Option<int>,
    tonerLevelPct: Option<int>, drumLevelPct: Option<int>)

  /** The calling proxy device, as its API key identifies it. */
  datatype ProxyDevice = ProxyDevice(id: int, userId: int)

  datatype PrinterCreate = PrinterCreate(
    ip: string, name: string, location: Option<string>, model: Option<string>, manufacturer: Option<string>)

  /** The patch body: `None` means "leave this field alone". */
  datatype PrinterUpdate = PrinterUpdate(name: Option<string>, location: Option<string>, model: Option<string>)

  /** What the licensing service's printer-limit check answers for the device's owner. */
  datatype LimitCheck = LimitCheck(canAdd: bool, currentCount: int, maxAllowed: int)

  const PrinterNotFound := "Printer not found"

  function OwnedByUser(userId: int): Printer -> bool
  {
    (p: Printer) => p.userId == userId
  }

  function SameAddress(ip: string, deviceId: int): Printer -> bool
  {
    (p: Printer) => p.ip == ip && p.deviceId == deviceId
  }

  function Target(id: int, userId: int): Printer -> bool
  {
    (p: Printer) => p.id == id && p.userId == userId
  }

  function NotOf(printerId: int): Metric -> bool
  {
    (m: Metric) => m.printerId != printerId
  }

  predicate UniqueIds(printers: seq<Printer>)
  {
    forall i, j :: 0 <= i < j < |printers| ==> printers[i].id != printers[j].id
  }

  /** No device reports two printers at one address: the rule the upsert keeps. */
  predicate UniqueAddresses(printers: seq<Printer>)
  {
    forall i, j :: 0 <= i < j < |printers| ==>
      !(printers[i].ip == printers[j].ip && printers[i].deviceId == printers[j].deviceId)
  }

  /** Every metric row belongs to a printer that exists: the rule the delete cascade keeps. */
  predicate MetricsAttached(printers: seq<Printer>, metrics: seq<Metric>)
  {
    forall m :: m in metrics ==> exists i :: 0 <= i < |printers| && printers[i].id == m.printerId
  }

  /** The re-registration of a known printer: new name, location and model, and a fresh `updated_at`. */
  function Refreshed(p: Printer, data: PrinterCreate, now: int): (q: Printer)
    ensures q.id == p.id && q.userId == p.userId && q.deviceId == p.deviceId && q.ip == p.ip
    ensures q.manufacturer == p.manufacturer && q.serialNumber == p.serialNumber
    ensures q.connectionStatus == p.connectionStatus && q.lastSeenAt == p.lastSeenAt
    ensures q.createdAt == p.createdAt
    ensures q.name == data.name && q.location == data.location && q.model == data.model
    ensures q.updatedAt == now
  {
    p.(name := data.name, location := data.location, model := data.model, updatedAt := now)
  }

  /** A printer as first registered: owned by the device's owner and connected. */
  function NewPrinter(id: int, device: ProxyDevice, data: PrinterCreate, now: int): (p: Printer)
    ensures p.id == id && p.userId == device.userId && p.deviceId == device.id
    ensures p.ip == data.ip && p.name == data.name && p.location == data.location
    ensures p.model == data.model && p.manufacturer == data.manufacturer
    ensures p.connectionStatus == "connected"
    ensures p.serialNumber.None? && p.lastSeenAt.None? && p.createdAt == now && p.updatedAt == now
  {
    Printer(id, device.userId, device.id, data.ip, data.name, data.location, data.model,
      data.manufacturer, None, "connected", None, now, now)
  }

  /** The fixed text in front of the allowance in the 403 detail. */
  function LimitPrefix(tierId: string): string
  {
    "Printer limit reached. Your " + tierId + " plan allows "
  }

  /**
   * The rest of the 403 detail, word by word: "{max} printer(s). You have {count}. Please
   * upgrade to add more printers."
   */
  function LimitWords(maxText: string, countText: string): seq<string>
  {
    [maxText, "printer(s).", "You", "have", countText + ".", "Please", "upgrade", "to", "add", "more", "printers."]
  }

  /** The 403 detail, naming the plan, its allowance and the current count. */
  function LimitMessage(tierId: string, limit: LimitCheck): (m: string)
    ensures StartsWith(m, LimitPrefix(tierId))
    ensures ReadAllowance(m, tierId) == Some((limit.maxAllowed, limit.currentCount))
  {
    var maxText, countText := IntToString(limit.maxAllowed), IntToString(limit.currentCount);
    var m := LimitPrefix(tierId) + Join(LimitWords(maxText, countText), ' ');
    LimitMessageReadsBack(tierId, limit);
    m
  }

  /**
   * A reader of the 403 detail for a known plan: the allowance is the first word after the
   * prefix, and the count is the fifth word, less its full stop.
   */
  function ReadAllowance(m: string, tierId: string): Option<(int, int)>
  {
    if !StartsWith(m, LimitPrefix(tierId)) then None
    else
      var words := Split(m[|LimitPrefix(tierId)|..], ' ');
      if |words| < 5 || |words[4]| == 0 || words[4][|words[4]| - 1] != '.' then None
      else match (ParseInt(words[0]), ParseInt(words[4][..|words[4]| - 1]))
        case (Some(max), Some(count)) => Some((max, count))
        case _ => None
  }

  /** The 403 detail reads back as the allowance and the count it was built from. */
  lemma LimitMessageReadsBack(tierId: string, limit: LimitCheck)
    ensures var m := LimitPrefix(tierId) + Join(LimitWords(IntToString(limit.maxAllowed), IntToString(limit.currentCount)), ' ');
      ReadAllowance(m, tierId) == Some((limit.maxAllowed, limit.currentCount))
  {
    var maxText, countText := IntToString(limit.maxAllowed), IntToString(limit.currentCount);
    var words := LimitWords(maxText, countText);
    var rest := Join(words, ' ');
    var m := LimitPrefix(tierId) + rest;
    assert m[..|LimitPrefix(tierId)|] == LimitPrefix(tierId);
    assert m[|LimitPrefix(tierId)|..] == rest;
    IntToStringLacks(limit.maxAllowed, ' ');
    IntToStringLacks(limit.currentCount, ' ');
    assert ' ' !in countText + ".";
    SplitJoin(words, ' ');
    assert (countText + ".")[..|countText|] == countText;
    IntToStringRoundTrip(limit.maxAllowed);
    IntToStringRoundTrip(limit.currentCount);
  }

  /**
   * The user's patch: given fields are overwritten, `updated_at` is always set, and the
   * address, device and owner never change.
   */
  function ApplyUpdate(p: Printer, u: PrinterUpdate, now: int): (q: Printer)
    ensures q.id == p.id && q.ip == p.ip && q.deviceId == p.deviceId && q.userId == p.userId
    ensures q.manufacturer == p.manufacturer && q.connectionStatus == p.connectionStatus
    ensures q.serialNumber == p.serialNumber && q.lastSeenAt == p.lastSeenAt
    ensures q.createdAt == p.createdAt && q.updatedAt == now
    ensures q.name == (if u.name.Some? then u.name.value else p.name)
    ensures q.location == (if u.location.Some? then u.location else p.location)
    ensures q.model == (if u.model.Some? then u.model else p.model)
  {
    var withName := if u.name.Some? then p.(name := u.name.value) else p;
    var withLocation := if u.location.Some? then withName.(location := u.location) else withName;
    var withModel := if u.model.Some? then withLocation.(model := u.model) else withLocation;
    withModel.(updatedAt := now)
  }

  class PrinterTable {
    var printers: seq<Printer>
    var metrics: seq<Metric>
    /** The id the database assigns to the next printer. */
    var nextId: int

    ghost predicate Valid()
      reads this
    {
      UniqueIds(printers) && forall i :: 0 <= i < |printers| ==> printers[i].id < nextId
    }

    constructor ()
      ensures Valid() && printers == [] && metrics == []
    {
      printers, metrics, nextId := [], [], 1;
    }

    /**
     * `register_printer`, called by a proxy device. A printer the device already reports
     * at this address is refreshed in place, whatever the limit. A new one is created only
     * if the limit check allows it, and is refused with 403 otherwise.
     */
    method Register(device: ProxyDevice, data: PrinterCreate, limit: LimitCheck, tierId: string, now: int)
      returns (r: Result<Printer, HttpError>)
      requires Valid()
      modifies this
      ensures Valid() && metrics == old(metrics)
      ensures First(old(printers), SameAddress(data.ip, device.id)).Some? ==>
        var k := First(old(printers), SameAddress(data.ip, device.id)).value;
        && printers == old(printers)[k := Refreshed(old(printers)[k], data, now)]
        && r == Ok(printers[k]) && nextId == old(nextId)
      ensures First(old(printers), SameAddress(data.ip, device.id)).None? && !limit.canAdd ==>
        && r == Err(Raise(Forbidden, LimitMessage(tierId, limit)))
        && printers == old(printers) && nextId == old(nextId)
      ensures First(old(printers), SameAddress(data.ip, device.id)).None? && limit.canAdd ==>
        && r == Ok(NewPrinter(old(nextId), device, data, now))
        && printers == old(printers) + [r.value] && nextId == old(nextId) + 1
      ensures UniqueAddresses(old(printers)) ==> UniqueAddresses(printers)
      ensures MetricsAttached(old(printers), metrics) ==> MetricsAttached(printers, metrics)
    {
      var existing := First(printers, SameAddress(data.ip, device.id));
      if existing.Some? {
        var k := existing.value;
        var refreshed := Refreshed(printers[k], data, now);
        ReplaceKeepsMetricsAttached(printers, k, refreshed, metrics);
        ReplaceKeepsKeys(printers, k, refreshed);
        printers := printers[k := refreshed];
        return Ok(refreshed);
      }
      if !limit.canAdd {
        return Err(Raise(Forbidden, LimitMessage(tierId, limit)));
      }
      var printer := NewPrinter(nextId, device, data, now);
      AppendKeepsMetricsAttached(printers, printer, metrics);
      AppendKeepsKeys(printers, printer, nextId);
      printers := printers + [printer];
      nextId := nextId + 1;
      r := Ok(printer);
    }

    /** `list_printers`: exactly the caller's printers, in table order. */
    method List(userId: int) returns (r: seq<Printer>)
      ensures forall p :: p in r <==> p in printers && p.userId == userId
      ensures r == Where(printers, OwnedByUser(userId))
    {
      r := Where(printers, OwnedByUser(userId));
    }

    /** `get_printer`: the caller's printer with this id, or 404. */
    method Get(userId: int, id: int) returns (r: Result<Printer, HttpError>)
      ensures r.Ok? <==> exists i :: 0 <= i < |printers| && printers[i].id == id && printers[i].userId == userId
      ensures r.Ok? ==> r.value in printers && r.value.id == id && r.value.userId == userId
      ensures r.Err? ==> r.error == Raise(NotFound, PrinterNotFound)
    {
      var found := First(printers, Target(id, userId));
      if found.None? {
        return Err(Raise(NotFound, PrinterNotFound));
      }
      r := Ok(printers[found.value]);
    }

    /** `update_printer`: 404 unless the id names one of the caller's printers; otherwise that printer alone is patched. */
    method Update(userId: int, id: int, patch: PrinterUpdate, now: int) returns (r: Result<Printer, HttpError>)
      requires Valid()
      modifies this
      ensures Valid() && nextId == old(nextId) && metrics == old(metrics)
      ensures First(old(printers), Target(id, userId)).None? ==>
        r == Err(Raise(NotFound, PrinterNotFound)) && printers == old(printers)
      ensures First(old(printers), Target(id, userId)).Some? ==>
        var k := First(old(printers), Target(id, userId)).value;
        printers == old(printers)[k := ApplyUpdate(old(printers)[k], patch, now)] && r == Ok(printers[k])
      ensures UniqueAddresses(old(printers)) ==> UniqueAddresses(printers)
      ensures MetricsAttached(old(printers), metrics) ==> MetricsAttached(printers, metrics)
    {
      var found := First(printers, Target(id, userId));
      if found.None? {
        return Err(Raise(NotFound, PrinterNotFound));
      }
      var k := found.value;
      var updated := ApplyUpdate(printers[k], patch, now);
      ReplaceKeepsMetricsAttached(printers, k, updated, metrics);
      ReplaceKeepsKeys(printers, k, updated);
      printers := printers[k := updated];
      r := Ok(updated);
    }

    /**
     * The first `delete_printer`: 404 unless the id names one of the caller's printers;
     * otherwise that printer goes, and with it (the ORM cascade) exactly its metrics.
     */
    method Delete(userId: int, id: int) returns (r: Result<(), HttpError>)
      requires Valid()
      modifies this
      ensures Valid() && nextId == old(nextId)
      ensures First(old(printers), Target(id, userId)).None? ==>
        r == Err(Raise(NotFound, PrinterNotFound)) && printers == old(printers) && metrics == old(metrics)
      ensures First(old(printers), Target(id, userId)).Some? ==>
        && r == Ok(())
        && printers == RemoveAt(old(printers), First(old(printers), Target(id, userId)).value)
        && metrics == Where(old(metrics), NotOf(id))
      ensures UniqueAddresses(old(printers)) ==> UniqueAddresses(printers)
      ensures MetricsAttached(old(printers), old(metrics)) ==> MetricsAttached(printers, metrics)
    {
      var found := First(printers, Target(id, userId));
      if found.None? {
        return Err(Raise(NotFound, PrinterNotFound));
      }
      var k := found.value;
      ghost var before, beforeMetrics := printers, metrics;
      printers := RemoveAt(printers, k);
      metrics := Where(metrics, NotOf(id));
      CascadeKeepsMetricsAttached(before, k, beforeMetrics);
      r := Ok(());
    }
  }

  /** Overwriting a printer with one of the same id, address and device keeps ids and addresses unique. */
  lemma ReplaceKeepsKeys(printers: seq<Printer>, k: nat, q: Printer)
    requires k < |printers|
    requires q.id == printers[k].id && q.ip == printers[k].ip && q.deviceId == printers[k].deviceId
    ensures UniqueIds(printers) ==> UniqueIds(printers[k := q])
    ensures UniqueAddresses(printers) ==> UniqueAddresses(printers[k := q])
    ensures forall i :: 0 <= i < |printers| ==> printers[k := q][i].id == printers[i].id
  {
  }

  /** Adding a printer with a fresh id at a fresh address keeps ids and addresses unique. */
  lemma AppendKeepsKeys(printers: seq<Printer>, p: Printer, nextId: int)
    requires p.id == nextId && forall i :: 0 <= i < |printers| ==> printers[i].id < nextId
    requires forall i :: 0 <= i < |printers| ==> !SameAddress(p.ip, p.deviceId)(printers[i])
    ensures UniqueIds(printers) ==> UniqueIds(printers + [p])
    ensures UniqueAddresses(printers) ==> UniqueAddresses(printers + [p])
  {
  }

  /** Overwriting a printer with one of the same id leaves every metric attached. */
  lemma ReplaceKeepsMetricsAttached(printers: seq<Printer>, k: nat, q: Printer, metrics: seq<Metric>)
    requires k < |printers| && q.id == printers[k].id
    ensures MetricsAttached(printers, metrics) ==> MetricsAttached(printers[k := q], metrics)
  {
    var after := printers[k := q];
    if MetricsAttached(printers, metrics) {
      forall m | m in metrics ensures exists j :: 0 <= j < |after| && after[j].id == m.printerId {
        var i :| 0 <= i < |printers| && printers[i].id == m.printerId;
        assert after[i].id == printers[i].id;
      }
    }
  }

  /** Adding a printer leaves every metric attached. */
  lemma AppendKeepsMetricsAttached(printers: seq<Printer>, p: Printer, metrics: seq<Metric>)
    ensures MetricsAttached(printers, metrics) ==> MetricsAttached(printers + [p], metrics)
  {
    var after := printers + [p];
    if MetricsAttached(printers, metrics) {
      forall m | m in metrics ensures exists j :: 0 <= j < |after| && after[j].id == m.printerId {
        var i :| 0 <= i < |printers| && printers[i].id == m.printerId;
        assert after[i] == printers[i];
      }
    }
  }

  /** Removing a printer together with its metrics leaves every other metric attached. */
  lemma CascadeKeepsMetricsAttached(printers: seq<Printer>, k: nat, metrics: seq<Metric>)
    requires k < |printers|
    ensures MetricsAttached(printers, metrics) ==>
      MetricsAttached(RemoveAt(printers, k), Where(metrics, NotOf(printers[k].id)))
  {
    var after := RemoveAt(printers, k);
    var kept := Where(metrics, NotOf(printers[k].id));
    if MetricsAttached(printers, metrics) {
      forall m | m in kept ensures exists j :: 0 <= j < |after| && after[j].id == m.printerId {
        var i :| 0 <= i < |printers| && printers[i].id == m.printerId;
        assert i != k;
        if i < k { assert after[i] == printers[i]; } else { assert after[i - 1] == printers[i]; }
      }
    }
  }
}
