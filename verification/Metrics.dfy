/** internal/metrics/metrics.go: the run counters of the host and of each plugin on it. A nil context plugin is
    None; the moment of an update is given. */
module Metrics {

  datatype Option<T> = None | Some(value: T)

  datatype Kind = Successful | Failed | Canceled

  datatype Counts = Counts(successful: nat, failed: nat, canceled: nat) {
    function Of(kind: Kind): nat {
      match kind case Successful => successful case Failed => failed case Canceled => canceled
    }

    predicate AtMost(other: Counts) {
      successful <= other.successful && failed <= other.failed && canceled <= other.canceled
    }
  }

  const NONE := Counts(0, 0, 0)

  function Bump(c: Counts, kind: Kind): (r: Counts)
    ensures forall k :: r.Of(k) == c.Of(k) + if k == kind then 1 else 0
  {
    match kind
    case Successful => c.(successful := c.successful + 1)
    case Failed => c.(failed := c.failed + 1)
    case Canceled => c.(canceled := c.canceled + 1)
  }

  datatype LastRuns = LastRuns(successful: Option<int>, failed: Option<int>, canceled: Option<int>)

  /** The receivers register a PluginBase, the handlers a Plugin. */
  datatype Plugin =
    | PluginBase(name: string, pluginName: string, status: string, statusSince: int)
    | Plugin(name: string, pluginName: string, status: string, statusSince: int, last: LastRuns, counts: Counts)

  function CountsOf(p: Plugin): Counts {
    if p.Plugin? then p.counts else NONE
  }

  /* ----- merging an update into an entry ----- */

  function Later(current: Option<int>, updated: Option<int>): Option<int> {
    if updated.Some? then updated else current
  }

  function Larger(current: nat, updated: nat): nat {
    if updated > current then updated else current
  }

  function Heading(current: Plugin, updated: Plugin, now: int): (p: Plugin)
    ensures p.Plugin? == current.Plugin? && p.name == current.name && CountsOf(p) == CountsOf(current)
    ensures p.Plugin? ==> p.last == current.last
  {
    var named := if updated.pluginName != "" then current.(pluginName := updated.pluginName) else current;
    if updated.status == "" then named
    else named.(status := updated.status,
                statusSince := if current.status != updated.status then now else current.statusSince)
  }

  /** CompareAndUpdateMetrics: fields the update leaves empty are kept, and counters only rise. */
  function CompareAndUpdateMetrics(current: Plugin, updated: Plugin, now: int): (r: Option<Plugin>)
    ensures r.Some? <==> current.Plugin? == updated.Plugin?
    ensures r.Some? ==>
              && r.value.Plugin? == current.Plugin? && r.value.name == current.name
              && CountsOf(current).AtMost(CountsOf(r.value))
              && (CountsOf(updated).AtMost(CountsOf(current)) <==> CountsOf(r.value) == CountsOf(current))
    ensures r.Some? && r.value.Plugin? ==>
              && updated.counts.AtMost(r.value.counts)
              && r.value.counts.successful in [current.counts.successful, updated.counts.successful]
              && r.value.counts.failed in [current.counts.failed, updated.counts.failed]
              && r.value.counts.canceled in [current.counts.canceled, updated.counts.canceled]
    ensures r.Some? ==>
              && r.value.pluginName == (if updated.pluginName == "" then current.pluginName else updated.pluginName)
              && r.value.status == (if updated.status == "" then current.status else updated.status)
              && r.value.statusSince == (if r.value.status == current.status then current.statusSince else now)
    ensures r.Some? && r.value.Plugin? ==>
              && r.value.last.successful
                 == (if updated.last.successful == None then current.last.successful else updated.last.successful)
              && r.value.last.failed
                 == (if updated.last.failed == None then current.last.failed else updated.last.failed)
              && r.value.last.canceled
                 == (if updated.last.canceled == None then current.last.canceled else updated.last.canceled)
  {
    if current.Plugin? != updated.Plugin? then None
    else if current.PluginBase? then Some(Heading(current, updated, now))
    else
      var c, u := current.counts, updated.counts;
      Some(Heading(current, updated, now).(
        last := LastRuns(Later(current.last.successful, updated.last.successful),
                         Later(current.last.failed, updated.last.failed),
                         Later(current.last.canceled, updated.last.canceled)),
        counts := Counts(
          Larger(c.successful, u.successful), Larger(c.failed, u.failed), Larger(c.canceled, u.canceled))))
  }

  // The entry an update under this name applies to: one of the same kind.
  predicate Applies(p: Plugin, name: string, updated: Plugin) {
    p.Plugin? == updated.Plugin? && p.name == name
  }

  function Updated(plugins: seq<Plugin>, name: string, updated: Plugin, now: int): (r: seq<Plugin>)
    ensures |r| == |plugins|
    ensures forall i :: 0 <= i < |plugins| ==>
              r[i] == if Applies(plugins[i], name, updated) then CompareAndUpdateMetrics(plugins[i], updated, now).value
                      else plugins[i]
  {
    seq(|plugins|, i requires 0 <= i < |plugins| =>
      if Applies(plugins[i], name, updated) then CompareAndUpdateMetrics(plugins[i], updated, now).value
      else plugins[i])
  }

  // The update by which a plugin's counter is raised by one.
  function OneMore(name: string, p: Plugin, kind: Kind): Plugin
    requires p.Plugin?
  {
    Plugin(name, "", "", 0, LastRuns(None, None, None),
           match kind
           case Successful => NONE.(successful := p.counts.successful + 1)
           case Failed => NONE.(failed := p.counts.failed + 1)
           case Canceled => NONE.(canceled := p.counts.canceled + 1))
  }

  predicate Counting(p: Plugin, name: string) {
    p.Plugin? && p.name == name
  }

  // The entries from i on, each of this name raised by one in turn.
  function Raised(plugins: seq<Plugin>, i: nat, name: string, kind: Kind, now: int): seq<Plugin>
    requires i <= |plugins|
    decreases |plugins| - i
  {
    if i == |plugins| then plugins
    else if Counting(plugins[i], name) then
      Raised(Updated(plugins, name, OneMore(name, plugins[i], kind), now), i + 1, name, kind, now)
    else Raised(plugins, i + 1, name, kind, now)
  }

  class MetricsDataLock {
    var plugins: seq<Plugin>
    var totals: Counts

    constructor ()
      ensures Data() == Metrics([], NONE)
    {
      plugins, totals := [], NONE;
    }

    function Data(): Metrics
      reads this
    {
      Metrics(plugins, totals)
    }

    method AddPlugin(plugin: Plugin)
      modifies this
      ensures Data() == After(old(Data()), Add(plugin))
    {
      var i := 0;
      while i < |plugins|
        invariant 0 <= i <= |plugins|
        invariant forall j :: 0 <= j < i ==> plugins[j].name != plugin.name
      {
        if plugins[i].name == plugin.name {
          return;
        }
        i := i + 1;
      }
      plugins := plugins + [plugin];
    }

    /** UpdatePlugin on the metrics: under the update's own name, which a Plugin must have. */
    method UpdatePlugin(updated: Plugin, now: int) returns (ok: bool)
      modifies this
      ensures ok == (updated.Plugin? ==> updated.name != "")
      ensures Data() == if ok then After(old(Data()), Update(updated.name, updated, now)) else old(Data())
    {
      if updated.Plugin? && updated.name == "" {
        return false;
      }
      UpdateEntries(updated.name, updated, now);
      return true;
    }

    /** The loop of both UpdatePlugins; the other takes the name of the context's plugin. */
    method UpdateEntries(name: string, updated: Plugin, now: int)
      modifies `plugins
      ensures plugins == Updated(old(plugins), name, updated, now)
    {
      hide CompareAndUpdateMetrics, Updated;
      var i := 0;
      ghost var goal := Updated(plugins, name, updated, now);
      while i < |plugins|
        invariant 0 <= i <= |plugins| == |old(plugins)|
        invariant forall j :: 0 <= j < i ==> plugins[j] == goal[j]
        invariant forall j :: i <= j < |plugins| ==> plugins[j] == old(plugins)[j]
      {
        if Applies(plugins[i], name, updated) {
          plugins := plugins[i := CompareAndUpdateMetrics(plugins[i], updated, now).value];
        }
        i := i + 1;
      }
    }

    method IncrementTotal(kind: Kind, name: Option<string>, now: int)
      modifies this
      ensures Data() == After(old(Data()), Increment(kind, name, now))
    {
      totals := Bump(totals, kind);
      if name.None? {
        return;
      }
      ghost var goal := Raised(plugins, 0, name.value, kind, now);
      var i := 0;
      while i < |plugins|
        invariant 0 <= i <= |plugins| == |old(plugins)|
        invariant Raised(plugins, i, name.value, kind, now) == goal
        invariant totals == Bump(old(totals), kind)
      {
        if plugins[i].Plugin? && plugins[i].name == name.value {
          UpdateEntries(name.value, OneMore(name.value, plugins[i], kind), now);
        }
        i := i + 1;
      }
    }
  }

  /* ----- all sequences of operations ----- */

  datatype Metrics = Metrics(plugins: seq<Plugin>, totals: Counts)

  datatype Operation =
    | Add(plugin: Plugin)
    | Increment(kind: Kind, who: Option<string>, now: int)
    | Update(name: string, updated: Plugin, now: int)

  predicate Listed(plugins: seq<Plugin>, name: string) {
    exists i :: 0 <= i < |plugins| && plugins[i].name == name
  }

  function After(m: Metrics, op: Operation): Metrics {
    match op
    case Add(p) => if Listed(m.plugins, p.name) then m else m.(plugins := m.plugins + [p])
    case Increment(kind, who, now) =>
      Metrics(if who.Some? then Raised(m.plugins, 0, who.value, kind, now) else m.plugins, Bump(m.totals, kind))
    case Update(name, updated, now) => m.(plugins := Updated(m.plugins, name, updated, now))
  }

  predicate NamesUnique(plugins: seq<Plugin>) {
    forall i, j :: 0 <= i < j < |plugins| ==> plugins[i].name != plugins[j].name
  }

  function Sum(plugins: seq<Plugin>, kind: Kind): nat {
    if plugins == [] then 0 else CountsOf(plugins[0]).Of(kind) + Sum(plugins[1..], kind)
  }

  /** Every total is the sum of the plugins' counters. */
  ghost predicate Agree(m: Metrics) {
    forall kind :: m.totals.Of(kind) == Sum(m.plugins, kind)
  }

  // Whether an operation keeps the totals: something its caller can check. A plugin is added with nothing counted
  // yet; an increment comes from a handler's plugin in the list; an update raises no counter by itself.
  predicate KeepsTotals(m: Metrics, op: Operation) {
    match op
    case Add(p) => Listed(m.plugins, p.name) || CountsOf(p) == NONE
    case Increment(_, who, _) =>
      who.Some? && exists i :: 0 <= i < |m.plugins| && Counting(m.plugins[i], who.value)
    case Update(name, updated, _) =>
      forall i :: 0 <= i < |m.plugins| && Applies(m.plugins[i], name, updated) ==>
        CountsOf(updated).AtMost(CountsOf(m.plugins[i]))
  }

  /** What each operation does to the list of plugins, where names are unique. An added plugin is at the end, unless
      its name is taken; an increment raises that counter of the handler entry of this name by one and no other; an
      update reaches the entry of its name and kind only, and merges into it. */
  lemma OperationEffects(m: Metrics, op: Operation, k: nat)
    requires NamesUnique(m.plugins) && k < |m.plugins|
    ensures var after, p := After(m, op), m.plugins[k];
      && |m.plugins| <= |after.plugins|
      && match op
         case Add(added) =>
           && after.plugins[k] == p && after.totals == m.totals
           && if exists i :: 0 <= i < |m.plugins| && m.plugins[i].name == added.name then after == m
              else after.plugins == m.plugins + [added]
         case Increment(kind, who, _) =>
           && |after.plugins| == |m.plugins|
           && after.plugins[k]
              == (if p.Plugin? && who == Some(p.name) then p.(counts := OneMoreOf(p.counts, kind)) else p)
           && after.totals == OneMoreOf(m.totals, kind)
         case Update(name, updated, now) =>
           && |after.plugins| == |m.plugins| && after.totals == m.totals
           && (if p.name == name && p.Plugin? == updated.Plugin?
               then Some(after.plugins[k]) == CompareAndUpdateMetrics(p, updated, now)
               else after.plugins[k] == p)
  {
    hide CompareAndUpdateMetrics;
    match op
    case Increment(kind, who, now) =>
      if who.Some? {
        RaisedOnly(m.plugins, 0, who.value, kind, now, k);
      }
    case _ =>
  }

  function OneMoreOf(c: Counts, kind: Kind): Counts {
    Counts(c.successful + (if kind == Successful then 1 else 0), c.failed + (if kind == Failed then 1 else 0),
           c.canceled + (if kind == Canceled then 1 else 0))
  }

  lemma {:induction false} RaisedOnly(plugins: seq<Plugin>, i: nat, name: string, kind: Kind, now: int, k: nat)
    requires i <= |plugins| && k < |plugins| && NamesUnique(plugins)
    ensures |Raised(plugins, i, name, kind, now)| == |plugins|
    ensures Raised(plugins, i, name, kind, now)[k] ==
            if k >= i && Counting(plugins[k], name) then plugins[k].(counts := OneMoreOf(plugins[k].counts, kind))
            else plugins[k]
    decreases |plugins| - i
  {
    hide CompareAndUpdateMetrics;
    if i < |plugins| {
      if Counting(plugins[i], name) {
        MergingOneMore(plugins[i], name, kind, now);
        RaisedOnly(Updated(plugins, name, OneMore(name, plugins[i], kind), now), i + 1, name, kind, now, k);
      } else {
        RaisedOnly(plugins, i + 1, name, kind, now, k);
      }
    }
  }

  lemma MergingOneMore(p: Plugin, name: string, kind: Kind, now: int)
    requires Counting(p, name)
    ensures CompareAndUpdateMetrics(p, OneMore(name, p, kind), now)
            == Some(p.(counts := OneMoreOf(p.counts, kind)))
  {
  }

  /* ----- counters only rise, names stay unique ----- */

  // Pointwise: the same entries, none counting less, and perhaps more entries at the end.
  predicate Risen(a: seq<Plugin>, b: seq<Plugin>) {
    && |a| <= |b|
    && forall i :: 0 <= i < |a| ==> a[i].name == b[i].name && CountsOf(a[i]).AtMost(CountsOf(b[i]))
  }

  lemma {:induction false} RaisedRises(plugins: seq<Plugin>, i: nat, name: string, kind: Kind, now: int)
    requires i <= |plugins|
    ensures Risen(plugins, Raised(plugins, i, name, kind, now))
    ensures |Raised(plugins, i, name, kind, now)| == |plugins|
    decreases |plugins| - i
  {
    if i < |plugins| {
      if Counting(plugins[i], name) {
        RaisedRises(Updated(plugins, name, OneMore(name, plugins[i], kind), now), i + 1, name, kind, now);
      } else {
        RaisedRises(plugins, i + 1, name, kind, now);
      }
    }
  }

  lemma StepRises(m: Metrics, op: Operation)
    ensures Risen(m.plugins, After(m, op).plugins) && m.totals.AtMost(After(m, op).totals)
    ensures NamesUnique(m.plugins) ==> NamesUnique(After(m, op).plugins)
  {
    if op.Increment? && op.who.Some? {
      RaisedRises(m.plugins, 0, op.who.value, op.kind, op.now);
    }
  }

  /* ----- totals ----- */

  lemma {:induction false} SumRises(a: seq<Plugin>, b: seq<Plugin>, kind: Kind)
    requires Risen(a, b) && |a| == |b|
    ensures Sum(a, kind) <= Sum(b, kind)
    ensures Sum(a, kind) == Sum(b, kind) <==>
            forall i :: 0 <= i < |a| ==> CountsOf(a[i]).Of(kind) == CountsOf(b[i]).Of(kind)
  {
    if a != [] {
      assert forall i :: 0 <= i < |a[1..]| ==> a[1..][i] == a[i + 1] && b[1..][i] == b[i + 1];
      SumRises(a[1..], b[1..], kind);
      assert forall i :: 0 < i < |a| ==> a[i] == a[1..][i - 1] && b[i] == b[1..][i - 1];
    }
  }

  // With unique names exactly the entry of that name counts one more.
  lemma {:induction false} RaisedCounts(plugins: seq<Plugin>, i: nat, name: string, kind: Kind, now: int, k: nat)
    requires i <= |plugins| && k < |plugins| && NamesUnique(plugins)
    ensures |Raised(plugins, i, name, kind, now)| == |plugins|
    ensures CountsOf(Raised(plugins, i, name, kind, now)[k]) ==
            if k >= i && Counting(plugins[k], name) then Bump(CountsOf(plugins[k]), kind) else CountsOf(plugins[k])
    decreases |plugins| - i
  {
    RaisedRises(plugins, i, name, kind, now);
    if i < |plugins| {
      if Counting(plugins[i], name) {
        RaisedCounts(Updated(plugins, name, OneMore(name, plugins[i], kind), now), i + 1, name, kind, now, k);
      } else {
        RaisedCounts(plugins, i + 1, name, kind, now, k);
      }
    }
  }

  lemma {:induction false} SumOfOneMore(a: seq<Plugin>, b: seq<Plugin>, j: nat, kind: Kind, of: Kind)
    requires |a| == |b| && j < |a|
    requires forall i :: 0 <= i < |a| ==>
               CountsOf(b[i]) == if i == j then Bump(CountsOf(a[i]), kind) else CountsOf(a[i])
    ensures Sum(b, of) == Sum(a, of) + if of == kind then 1 else 0
  {
    assert forall i :: 0 <= i < |a[1..]| ==> a[1..][i] == a[i + 1] && b[1..][i] == b[i + 1];
    if j > 0 {
      SumOfOneMore(a[1..], b[1..], j - 1, kind, of);
    } else {
      SumSame(a[1..], b[1..], of);
    }
  }

  lemma {:induction false} SumSame(a: seq<Plugin>, b: seq<Plugin>, of: Kind)
    requires |a| == |b| && forall i :: 0 <= i < |a| ==> CountsOf(b[i]) == CountsOf(a[i])
    ensures Sum(b, of) == Sum(a, of)
  {
    if a != [] {
      SumSame(a[1..], b[1..], of);
    }
  }

  lemma {:induction false} SumOfAdded(plugins: seq<Plugin>, p: Plugin, kind: Kind)
    ensures Sum(plugins + [p], kind) == Sum(plugins, kind) + CountsOf(p).Of(kind)
  {
    if plugins == [] {
      assert plugins + [p] == [p];
      assert [p][1..] == [];
    } else {
      assert (plugins + [p])[1..] == plugins[1..] + [p];
      SumOfAdded(plugins[1..], p, kind);
    }
  }

  lemma AddKeepsTotalsIff(m: Metrics, p: Plugin)
    requires Agree(m) && !Listed(m.plugins, p.name)
    ensures Agree(After(m, Add(p))) <==> CountsOf(p) == NONE
  {
    hide Sum;
    forall kind ensures Sum(m.plugins + [p], kind) == Sum(m.plugins, kind) + CountsOf(p).Of(kind) {
      SumOfAdded(m.plugins, p, kind);
    }
    if Agree(After(m, Add(p))) {
      assert m.totals.Of(Successful) == Sum(m.plugins + [p], Successful);
      assert m.totals.Of(Failed) == Sum(m.plugins + [p], Failed);
      assert m.totals.Of(Canceled) == Sum(m.plugins + [p], Canceled);
    }
  }

  lemma IncrementKeepsTotalsIff(m: Metrics, kind: Kind, who: Option<string>, now: int)
    requires Agree(m) && NamesUnique(m.plugins)
    ensures Agree(After(m, Increment(kind, who, now))) <==> KeepsTotals(m, Increment(kind, who, now))
  {
    hide Sum, Raised;
    var b := After(m, Increment(kind, who, now)).plugins;
    if who.Some? {
      RaisedRises(m.plugins, 0, who.value, kind, now);
      forall k: nat | k < |b|
        ensures CountsOf(b[k]) ==
                if Counting(m.plugins[k], who.value) then Bump(CountsOf(m.plugins[k]), kind) else CountsOf(m.plugins[k])
      {
        RaisedCounts(m.plugins, 0, who.value, kind, now, k);
      }
    }
    if KeepsTotals(m, Increment(kind, who, now)) {
      var j :| 0 <= j < |m.plugins| && Counting(m.plugins[j], who.value);
      forall of ensures Sum(b, of) == Sum(m.plugins, of) + if of == kind then 1 else 0 {
        SumOfOneMore(m.plugins, b, j, kind, of);
      }
    } else {
      SumSame(m.plugins, b, kind);
      assert m.totals.Of(kind) == Sum(m.plugins, kind);
    }
  }

  lemma UpdateKeepsTotalsIff(m: Metrics, name: string, updated: Plugin, now: int)
    requires Agree(m)
    ensures Agree(After(m, Update(name, updated, now))) <==> KeepsTotals(m, Update(name, updated, now))
  {
    hide Sum, CompareAndUpdateMetrics, Updated;
    var b := Updated(m.plugins, name, updated, now);
    if KeepsTotals(m, Update(name, updated, now)) {
      forall kind ensures Sum(b, kind) == Sum(m.plugins, kind) {
        SumSame(m.plugins, b, kind);
      }
    } else {
      var i :| 0 <= i < |b| && CountsOf(b[i]) != CountsOf(m.plugins[i]);
      var kind := DifferingKind(CountsOf(m.plugins[i]), CountsOf(b[i]));
      SumRises(m.plugins, b, kind);
      assert m.totals.Of(kind) == Sum(m.plugins, kind);
    }
  }

  function DifferingKind(a: Counts, b: Counts): (kind: Kind)
    requires a != b
    ensures a.Of(kind) != b.Of(kind)
  {
    if a.successful != b.successful then Successful else if a.failed != b.failed then Failed else Canceled
  }

  /** Where the totals agree with the plugins and names are unique, an operation keeps that agreement exactly
      when: a plugin added is new with nothing counted (or known already), an increment comes from a handler's
      plugin in the list, an update raises no counter. */
  lemma TotalsKeptIff(m: Metrics, op: Operation)
    requires Agree(m) && NamesUnique(m.plugins)
    ensures Agree(After(m, op)) <==> KeepsTotals(m, op)
  {
    match op
    case Add(p) =>
      if !Listed(m.plugins, p.name) {
        AddKeepsTotalsIff(m, p);
      }
    case Increment(kind, who, now) => IncrementKeepsTotalsIff(m, kind, who, now);
    case Update(name, updated, now) => UpdateKeepsTotalsIff(m, name, updated, now);
  }

  function AfterAll(m: Metrics, ops: seq<Operation>): Metrics
    decreases |ops|
  {
    if ops == [] then m else AfterAll(After(m, ops[0]), ops[1..])
  }

  predicate AllKeepTotals(m: Metrics, ops: seq<Operation>)
    decreases |ops|
  {
    ops == [] || (KeepsTotals(m, ops[0]) && AllKeepTotals(After(m, ops[0]), ops[1..]))
  }

  /** Over any sequence of operations no counter of a plugin or of the host ever falls, plugins stay where they
      are in the list, and names stay unique. */
  lemma {:induction false} RunRises(m: Metrics, ops: seq<Operation>)
    requires NamesUnique(m.plugins)
    ensures Risen(m.plugins, AfterAll(m, ops).plugins) && m.totals.AtMost(AfterAll(m, ops).totals)
    ensures NamesUnique(AfterAll(m, ops).plugins)
    decreases |ops|
  {
    hide After, NamesUnique;
    if ops != [] {
      StepRises(m, ops[0]);
      RunRises(After(m, ops[0]), ops[1..]);
    }
  }

  /** From the empty metrics (or any where they agree), over any sequence of operations by registered handler
      plugins, every total stays the sum of the plugins' counters. */
  lemma {:induction false} RunKeepsTotals(m: Metrics, ops: seq<Operation>)
    requires NamesUnique(m.plugins) && Agree(m) && AllKeepTotals(m, ops)
    ensures Agree(AfterAll(m, ops)) && NamesUnique(AfterAll(m, ops).plugins)
    decreases |ops|
  {
    hide After, Agree, KeepsTotals, NamesUnique;
    if ops != [] {
      StepRises(m, ops[0]);
      TotalsKeptIff(m, ops[0]);
      RunKeepsTotals(After(m, ops[0]), ops[1..]);
    }
  }
}
