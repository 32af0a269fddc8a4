/** The telemetry journal object: one stored document, filtered, extended and cut by each call. */
module TelemetryStores {
  import opened Core
  import TelemetryHistory

  datatype Receipt = Receipt(key: string, generation: int, appended: bool, retained: nat)

  class CacheTelemetryHistory {
    const config: TelemetryHistory.Config
    var journal: TelemetryHistory.Journal

    constructor (config: TelemetryHistory.Config)
      ensures this.config == config && journal == TelemetryHistory.Run(config, [])
    {
      this.config := config;
      journal := TelemetryHistory.Journal(0, []);
    }

    method Retained(cutoff: int) returns (live: seq<TelemetryHistory.Event>)
      ensures live == TelemetryHistory.Since(journal.records, cutoff)
    {
      live := [];
      for i := 0 to |journal.records|
        invariant live == TelemetryHistory.Since(journal.records[..i], cutoff)
      {
        assert journal.records[..i + 1][..i] == journal.records[..i];
        if journal.records[i].time >= cutoff {
          live := live + [journal.records[i]];
        }
      }
      assert journal.records[..|journal.records|] == journal.records;
    }

    /** Whether the key is present, and whether it stands for another event. */
    method Lookup(live: seq<TelemetryHistory.Event>, e: TelemetryHistory.Event) returns (known: bool, conflict: bool)
      ensures known <==> TelemetryHistory.HasKey(live, e.key)
      ensures conflict <==> exists i :: 0 <= i < |live| && live[i].key == e.key && live[i] != e
    {
      known, conflict := false, false;
      for i := 0 to |live|
        invariant known <==> exists k :: 0 <= k < i && live[k].key == e.key
        invariant conflict <==> exists k :: 0 <= k < i && live[k].key == e.key && live[k] != e
      {
        if live[i].key == e.key {
          known := true;
          if live[i] != e {
            conflict := true;
          }
        }
      }
    }

    method Append(e: TelemetryHistory.Event, now: int) returns (result: Result<Receipt>)
      modifies this`journal
      ensures journal == TelemetryHistory.Step(config, old(journal), TelemetryHistory.DoAppend(e, now))
      ensures result.Ok? <==> TelemetryHistory.Append(config, old(journal), e, now).Ok?
      ensures result.Ok? ==>
                var live := TelemetryHistory.Since(old(journal).records, now - config.retention);
                result.value == Receipt(e.key, journal.generation,
                                        !TelemetryHistory.HasKey(live, e.key) && TelemetryHistory.HasKey(journal.records, e.key),
                                        |journal.records|)
    {
      hide TelemetryHistory.Since, TelemetryHistory.Sorted, TelemetryHistory.Last, TelemetryHistory.HasKey;
      if e.time > now {
        return Err("future_history_record");
      }
      var cutoff := now - config.retention;
      var records := Retained(cutoff);
      var known, conflict := Lookup(records, e);
      if conflict {
        return Err("idempotency_conflict");
      }
      if !known && e.time >= cutoff {
        records := records + [e];
      }
      records := TelemetryHistory.Last(TelemetryHistory.Sorted(records), config.maxRecords);
      if records != journal.records {
        journal := TelemetryHistory.Journal(journal.generation + 1, records);
      }
      var present, _ := Lookup(records, e);
      return Ok(Receipt(e.key, journal.generation, !known && present, |records|));
    }

    method Read(now: int) returns (records: seq<TelemetryHistory.Event>)
      modifies this`journal
      ensures journal == TelemetryHistory.Step(config, old(journal), TelemetryHistory.DoRead(now))
      ensures records == journal.records
    {
      hide TelemetryHistory.Since;
      records := Retained(now - config.retention);
      if records != journal.records {
        journal := TelemetryHistory.Journal(journal.generation + 1, records);
      }
    }
  }
}
