/**
 * `MemoryRecycleTrigger`: asks for an app to be recycled once its physical
 * memory usage reaches a configured threshold.
 */
module MemoryRecycleTrigger {
  import opened Wrappers
  import opened Text
  import opened ServerConfig
  import opened StatusInfo

  const TriggerName := "MemoryTrigger"
  const MaxMemoryUsageOption := "maxMemoryUsage"

  /** The trigger's only state: `m_MaxMemoryUsage`, a 64-bit integer that starts at 0. */
  datatype Trigger = Trigger(maxMemoryUsage: int)

  function New(): (r: Trigger)
    ensures r.maxMemoryUsage == 0
  {
    Trigger(0)
  }

  /** `Name`: the name the trigger is registered under, whatever its threshold. */
  function Name(t: Trigger): (r: string)
    ensures r == "MemoryTrigger"
  {
    TriggerName
  }

  /** `maxMemoryUsage` parsed as a 64-bit integer, if it parses. */
  function ParsedThreshold(options: map<string, string>): (r: Option<int>)
    ensures r.Some? ==> Int64Min <= r.value <= Int64Max
  {
    ParseInteger(GetValue(options, MaxMemoryUsageOption), Int64Min, Int64Max)
  }

  /**
   * `Initialize` as the source writes it: the parse's out-parameter becomes
   * the threshold (0 when parsing fails), and the result is false when the
   * parse succeeds or the threshold is not positive. The trigger never
   * initializes successfully.
   */
  function Initialize(t: Trigger, options: map<string, string>): (r: (Trigger, bool))
    ensures !r.1
    ensures r.0.maxMemoryUsage == ParsedThreshold(options).GetOr(0)
  {
    var parsed := ParsedThreshold(options);
    var threshold := parsed.GetOr(0);
    (Trigger(threshold), !(parsed.Some? || threshold <= 0))
  }

  /**
   * `Initialize` as its error handling evidently intends: success exactly when
   * a positive threshold parses, and that threshold is the one kept.
   */
  function InitializeIntended(t: Trigger, options: map<string, string>): (r: (Trigger, bool))
    ensures r.1 <==> ParsedThreshold(options).Some? && ParsedThreshold(options).value > 0
    ensures r.1 ==> r.0.maxMemoryUsage == ParsedThreshold(options).value && r.0.maxMemoryUsage > 0
  {
    var parsed := ParsedThreshold(options);
    var threshold := parsed.GetOr(0);
    (Trigger(threshold), parsed.Some? && threshold > 0)
  }

  /**
   * `NeedBeRecycled`: no memory reading means no recycling; otherwise recycle
   * once the reading reaches the threshold. The app is not consulted.
   */
  function NeedBeRecycled<A>(t: Trigger, app: A, status: Status): (r: bool)
    ensures MemoryUsage !in status ==> !r
    ensures MemoryUsage in status ==> (r <==> status[MemoryUsage] >= t.maxMemoryUsage)
  {
    if MemoryUsage !in status then false
    else status[MemoryUsage] >= t.maxMemoryUsage
  }

  /** A threshold written in decimal is stored as that number, and initialization still fails. */
  lemma InitializeRejectsValidThreshold(t: Trigger, options: map<string, string>, n: int)
    requires MaxMemoryUsageOption in options && options[MaxMemoryUsageOption] == ShowInt(n)
    requires Int64Min <= n <= Int64Max
    ensures Initialize(t, options) == (Trigger(n), false)
  {
    ParseShowInt(n, Int64Min, Int64Max);
  }

  /**
   * When the option is missing the threshold is 0, so every non-negative
   * memory reading asks for a recycle.
   */
  lemma MissingThresholdRecyclesEverything<A>(t: Trigger, options: map<string, string>, app: A, status: Status)
    requires MaxMemoryUsageOption !in options
    requires MemoryUsage in status && status[MemoryUsage] >= 0
    ensures NeedBeRecycled(Initialize(t, options).0, app, status)
  {
  }

  /** The intended initialization reads back a positive decimal threshold and refuses any other number. */
  lemma InitializeIntendedRoundTrip(t: Trigger, options: map<string, string>, n: int)
    requires MaxMemoryUsageOption in options && options[MaxMemoryUsageOption] == ShowInt(n)
    requires Int64Min <= n <= Int64Max
    ensures n > 0 ==> InitializeIntended(t, options) == (Trigger(n), true)
    ensures n <= 0 ==> !InitializeIntended(t, options).1
  {
    ParseShowInt(n, Int64Min, Int64Max);
  }

  /** A larger memory reading, or a lower threshold, never turns a recycle decision off. */
  lemma NeedBeRecycledMonotone<A, B>(t: Trigger, t': Trigger, app: A, app': B, status: Status, status': Status)
    requires NeedBeRecycled(t, app, status)
    requires MemoryUsage in status' && status'[MemoryUsage] >= status[MemoryUsage]
    requires t'.maxMemoryUsage <= t.maxMemoryUsage
    ensures NeedBeRecycled(t', app', status')
  {
  }

  /**
   * With a 100 MB threshold: 150000000 bytes recycles, 50000000 does not,
   * and a snapshot without a memory reading does not.
   */
  lemma HundredMegabyteExample<A>(app: A, cpu: int)
    ensures var t := Trigger(104857600);
            && NeedBeRecycled(t, app, map[MemoryUsage := 150000000])
            && !NeedBeRecycled(t, app, map[MemoryUsage := 50000000])
            && !NeedBeRecycled(t, app, map[CpuUsage := cpu])
  {
  }
}
