/** The Trusted Advisor report of the command-line front end, and its choice of one action from
    the command-line flags. */
module Aws {
  import opened Common
  import opened Dicts
  import opened Provider

  // ---------------------------------------------------------------- Trusted Advisor report

  /** The record kept for one check: `savings` is present exactly when the check's result has a
      cost-optimizing summary. */
  datatype Item = Item(id: string, name: string, savings: Option<real>)

  function ItemOf(c: Check, r: CheckResult): (it: Item)
    ensures it.id == c.id && it.name == c.name && it.savings == r.costOptimizing
  {
    Item(c.id, c.name, r.costOptimizing)
  }

  /** The status dictionary of the report: status to the records of the checks with that status,
      statuses in the order they were first met. A single one is shared by every category. */
  class StatusIndex {
    var groups: Dict<string, seq<Item>>

    constructor ()
      ensures groups == Empty()
    {
      groups := Empty();
    }

    /** Appends to the list of `status`, creating the list on first use. */
    method Append(status: string, item: Item)
      modifies this
      ensures groups == old(groups).Put(status, Group(old(groups), status) + [item])
    {
      if status in groups.entries {
        groups := groups.Put(status, groups.entries[status] + [item]);
      } else {
        assert Group(groups, status) + [item] == [item];
        groups := groups.Put(status, [item]);
      }
    }
  }

  /** The list of a status, empty when it has none yet. */
  function Group(g: Dict<string, seq<Item>>, status: string): seq<Item> {
    if status in g.entries then g.entries[status] else []
  }

  /** The sum of the estimated monthly savings of the checks that have a cost-optimizing summary. */
  function AdviceTotal(checks: seq<Check>, advisor: Advisor): real {
    if |checks| == 0 then 0.0
    else
      var r := advisor(checks[|checks| - 1].id);
      AdviceTotal(checks[..|checks| - 1], advisor) + (if r.costOptimizing.Some? then r.costOptimizing.value else 0.0)
  }

  /** Whether some check has a cost-optimizing summary (and so the total became a float). */
  predicate AnySavings(checks: seq<Check>, advisor: Advisor) {
    exists i :: 0 <= i < |checks| && advisor(checks[i].id).costOptimizing.Some?
  }

  /** The status dictionary after the checks, built one check at a time. */
  function Grouped(checks: seq<Check>, advisor: Advisor): Dict<string, seq<Item>> {
    if |checks| == 0 then Empty()
    else
      var g := Grouped(checks[..|checks| - 1], advisor);
      var c := checks[|checks| - 1];
      var r := advisor(c.id);
      g.Put(r.status, Group(g, r.status) + [ItemOf(c, r)])
  }

  /** The records of the checks whose result has status `s`, in check order. */
  function WithStatus(checks: seq<Check>, advisor: Advisor, s: string): seq<Item> {
    if |checks| == 0 then []
    else
      var c := checks[|checks| - 1];
      var rest := WithStatus(checks[..|checks| - 1], advisor, s);
      if advisor(c.id).status == s then rest + [ItemOf(c, advisor(c.id))] else rest
  }

  /** The grouping is a dictionary whose keys are exactly the statuses met, and the list of each
      status holds the records of the checks with that status, once each, in check order. */
  lemma {:induction false} GroupedSpec(checks: seq<Check>, advisor: Advisor)
    ensures Grouped(checks, advisor).Valid()
    ensures forall s :: s in Grouped(checks, advisor).entries <==>
                        exists i :: 0 <= i < |checks| && advisor(checks[i].id).status == s
    ensures forall s :: Group(Grouped(checks, advisor), s) == WithStatus(checks, advisor, s)
  {
    if |checks| > 0 {
      var init := checks[..|checks| - 1];
      var c := checks[|checks| - 1];
      GroupedSpec(init, advisor);
      var g := Grouped(init, advisor);
      forall s ensures s in Grouped(checks, advisor).entries <==>
                       exists i :: 0 <= i < |checks| && advisor(checks[i].id).status == s
      {
        if s in g.entries {
          var i :| 0 <= i < |init| && advisor(init[i].id).status == s;
          assert checks[i] == init[i];
        }
        if exists i :: 0 <= i < |checks| && advisor(checks[i].id).status == s {
          var i :| 0 <= i < |checks| && advisor(checks[i].id).status == s;
          if i < |init| {
            assert init[i] == checks[i];
          }
        }
      }
    }
  }

  /** The records of status `s` are those of the checks with status `s`: each carries the id and
      name of such a check and, as savings, exactly that check's cost-optimizing summary; and
      every such check has its record there. */
  lemma {:induction false} WithStatusRecords(checks: seq<Check>, advisor: Advisor, s: string)
    ensures forall it :: it in WithStatus(checks, advisor, s) ==>
              exists i :: 0 <= i < |checks| && advisor(checks[i].id).status == s && it.id == checks[i].id
                          && it.name == checks[i].name && it.savings == advisor(checks[i].id).costOptimizing
    ensures forall i :: 0 <= i < |checks| && advisor(checks[i].id).status == s ==>
              ItemOf(checks[i], advisor(checks[i].id)) in WithStatus(checks, advisor, s)
  {
    if |checks| > 0 {
      var init := checks[..|checks| - 1];
      var c := checks[|checks| - 1];
      WithStatusRecords(init, advisor, s);
      var rest := WithStatus(init, advisor, s);
      forall it | it in WithStatus(checks, advisor, s)
        ensures exists i :: 0 <= i < |checks| && advisor(checks[i].id).status == s && it.id == checks[i].id
                            && it.name == checks[i].name && it.savings == advisor(checks[i].id).costOptimizing
      {
        if it in rest {
          var i :| 0 <= i < |init| && advisor(init[i].id).status == s && it.id == init[i].id
                   && it.name == init[i].name && it.savings == advisor(init[i].id).costOptimizing;
          assert checks[i] == init[i];
        } else {
          assert checks[|checks| - 1] == c;
        }
      }
      forall i | 0 <= i < |checks| && advisor(checks[i].id).status == s
        ensures ItemOf(checks[i], advisor(checks[i].id)) in WithStatus(checks, advisor, s)
      {
        if i < |init| {
          assert init[i] == checks[i];
        }
      }
    }
  }

  /** The report's record of a check keeps the check's own savings: every record in the list of a
      status comes from a check with that status, with its id, its name and its cost-optimizing
      summary, and every check with that status has its record in the list. */
  lemma GroupedRecords(checks: seq<Check>, advisor: Advisor, s: string)
    ensures forall it :: it in Group(Grouped(checks, advisor), s) ==>
              exists i :: 0 <= i < |checks| && advisor(checks[i].id).status == s && it.id == checks[i].id
                          && it.name == checks[i].name && it.savings == advisor(checks[i].id).costOptimizing
    ensures forall i :: 0 <= i < |checks| && advisor(checks[i].id).status == s ==>
              ItemOf(checks[i], advisor(checks[i].id)) in Group(Grouped(checks, advisor), s)
  {
    GroupedSpec(checks, advisor);
    WithStatusRecords(checks, advisor, s);
  }

  /** The length of a status list, summed over the dictionary in `GroupedCount`. */
  function Len(items: seq<Item>): int { |items| }

  /** The status lists hold one record per check in all. */
  lemma {:induction false} GroupedCount(checks: seq<Check>, advisor: Advisor)
    ensures Grouped(checks, advisor).Valid()
    ensures Sum(Grouped(checks, advisor), Len) == |checks|
  {
    if |checks| > 0 {
      var init := checks[..|checks| - 1];
      var c := checks[|checks| - 1];
      GroupedCount(init, advisor);
      var g := Grouped(init, advisor);
      var r := advisor(c.id);
      PutSum(g, Len, r.status, Group(g, r.status) + [ItemOf(c, r)]);
    }
  }

  /** The total depends only on the cost-optimizing summaries, never on a check's status. */
  lemma {:induction false} AdviceTotalStatusIndependent(checks: seq<Check>, a1: Advisor, a2: Advisor)
    requires forall i :: 0 <= i < |checks| ==> a1(checks[i].id).costOptimizing == a2(checks[i].id).costOptimizing
    ensures AdviceTotal(checks, a1) == AdviceTotal(checks, a2)
  {
    if |checks| > 0 {
      AdviceTotalStatusIndependent(checks[..|checks| - 1], a1, a2);
      assert a1(checks[|checks| - 1].id).costOptimizing == a2(checks[|checks| - 1].id).costOptimizing;
    }
  }

  /** The categories of the checks, in check order. */
  function Categories(checks: seq<Check>): (cs: seq<string>)
    ensures |cs| == |checks| && forall i :: 0 <= i < |checks| ==> cs[i] == checks[i].category
  {
    seq(|checks|, i requires 0 <= i < |checks| => checks[i].category)
  }

  /** A printed report line: `category:status:name`, then `;savings` when the record has savings. */
  function Render(cat: string, status: string, it: Item, show: real -> string): (line: string)
    ensures |line| >= |cat| + |status| + |it.name| + 2
    ensures line[..|cat| + |status| + |it.name| + 2] == cat + ":" + status + ":" + it.name
    ensures it.savings.Some? <==> |line| > |cat| + |status| + |it.name| + 2
  {
    if it.savings.Some? then cat + ":" + status + ":" + it.name + ";" + show(it.savings.value)
    else cat + ":" + status + ":" + it.name
  }

  function ItemLines(cat: string, status: string, items: seq<Item>, show: real -> string): (lines: seq<string>)
    ensures |lines| == |items|
  {
    if |items| == 0 then []
    else ItemLines(cat, status, items[..|items| - 1], show) + [Render(cat, status, items[|items| - 1], show)]
  }

  /** The lines of one category: for each status in order, when verbose or when it is `error`,
      one line per record. */
  function StatusLines(cat: string, statuses: seq<string>, g: Dict<string, seq<Item>>, verbose: bool,
                       show: real -> string): seq<string>
  {
    if |statuses| == 0 then []
    else
      var s := statuses[|statuses| - 1];
      StatusLines(cat, statuses[..|statuses| - 1], g, verbose, show)
        + (if verbose || s == "error" then ItemLines(cat, s, Group(g, s), show) else [])
  }

  /** The whole printed report: every category walks the same status dictionary. */
  function ReportLines(cats: seq<string>, g: Dict<string, seq<Item>>, verbose: bool, show: real -> string)
    : seq<string>
  {
    if |cats| == 0 then []
    else ReportLines(cats[..|cats| - 1], g, verbose, show) + StatusLines(cats[|cats| - 1], g.keys, g, verbose, show)
  }

  lemma {:induction false} StatusLinesVerboseCount(cat: string, statuses: seq<string>, g: Dict<string, seq<Item>>,
                                                   show: real -> string)
    ensures |StatusLines(cat, statuses, g, true, show)| == SumOver(statuses, g.entries, Len)
  {
    if |statuses| > 0 {
      StatusLinesVerboseCount(cat, statuses[..|statuses| - 1], g, show);
    }
  }

  /** In verbose mode every category prints every processed check, so the report has one line
      per category and check. */
  lemma {:induction false} VerboseReportCount(cats: seq<string>, checks: seq<Check>, advisor: Advisor,
                                              show: real -> string)
    ensures |ReportLines(cats, Grouped(checks, advisor), true, show)| == |cats| * |checks|
  {
    if |cats| > 0 {
      VerboseReportCount(cats[..|cats| - 1], checks, advisor, show);
      var g := Grouped(checks, advisor);
      StatusLinesVerboseCount(cats[|cats| - 1], g.keys, g, show);
      GroupedCount(checks, advisor);
      assert |cats| * |checks| == (|cats| - 1) * |checks| + |checks|;
    }
  }

  /** In non-verbose mode a category prints exactly the records of status `error`. */
  lemma {:induction false} StatusLinesErrorsOnly(cat: string, statuses: seq<string>, g: Dict<string, seq<Item>>,
                                                 show: real -> string)
    requires forall i, j :: 0 <= i < j < |statuses| ==> statuses[i] != statuses[j]
    ensures StatusLines(cat, statuses, g, false, show)
            == if "error" in statuses then ItemLines(cat, "error", Group(g, "error"), show) else []
  {
    if |statuses| > 0 {
      var init := statuses[..|statuses| - 1];
      var s := statuses[|statuses| - 1];
      StatusLinesErrorsOnly(cat, init, g, show);
      assert statuses == init + [s];
      if s == "error" {
        assert "error" !in init by {
          forall i | 0 <= i < |init| ensures init[i] != s {
            assert statuses[i] != statuses[|statuses| - 1];
          }
        }
      }
    }
  }

  /** The non-verbose report: per category in order, the lines of the `error` records. */
  function ErrorReport(cats: seq<string>, g: Dict<string, seq<Item>>, show: real -> string): seq<string> {
    if |cats| == 0 then []
    else ErrorReport(cats[..|cats| - 1], g, show) + ItemLines(cats[|cats| - 1], "error", Group(g, "error"), show)
  }

  lemma {:induction false} NonVerboseReport(cats: seq<string>, g: Dict<string, seq<Item>>, show: real -> string)
    requires g.Valid()
    ensures ReportLines(cats, g, false, show) == ErrorReport(cats, g, show)
  {
    if |cats| > 0 {
      NonVerboseReport(cats[..|cats| - 1], g, show);
      StatusLinesErrorsOnly(cats[|cats| - 1], g.keys, g, show);
    }
  }

  function AdviceMessage(checks: seq<Check>, advisor: Advisor, show: real -> string): string {
    "You can save up to " + SavingsText(AdviceTotal(checks, advisor), AnySavings(checks, advisor), show) + "$"
  }

  /** What one more check adds to the total, the grouping and the categories. */
  lemma AdviceStep(checks: seq<Check>, i: nat, advisor: Advisor)
    requires i < |checks|
    ensures var c := checks[i];
            var r := advisor(c.id);
            && AdviceTotal(checks[..i + 1], advisor)
               == AdviceTotal(checks[..i], advisor) + (if r.costOptimizing.Some? then r.costOptimizing.value else 0.0)
            && (AnySavings(checks[..i + 1], advisor) <==> AnySavings(checks[..i], advisor) || r.costOptimizing.Some?)
            && Grouped(checks[..i + 1], advisor)
               == Grouped(checks[..i], advisor).Put(r.status, Group(Grouped(checks[..i], advisor), r.status) + [ItemOf(c, r)])
            && FirstSeen(Categories(checks[..i + 1]))
               == var rest := FirstSeen(Categories(checks[..i]));
                  if c.category in rest then rest else rest + [c.category]
  {
    var c := checks[i];
    assert checks[..i + 1][..i] == checks[..i];
    assert Categories(checks[..i + 1])[..i] == Categories(checks[..i]);
    if AnySavings(checks[..i + 1], advisor) && !advisor(c.id).costOptimizing.Some? {
      var j :| 0 <= j < i + 1 && advisor(checks[..i + 1][j].id).costOptimizing.Some?;
      assert j < i && checks[..i + 1][j] == checks[..i][j];
    }
    if AnySavings(checks[..i], advisor) {
      var j :| 0 <= j < i && advisor(checks[..i][j].id).costOptimizing.Some?;
      assert checks[..i + 1][j] == checks[..i][j];
    }
  }

  /** The state of the collecting loop after `checks`: the total and whether it became a float,
      the status dictionary, and a category dictionary in first-seen order whose every value is
      the shared status dictionary `shared`. */
  ghost predicate Collected(checks: seq<Check>, advisor: Advisor, total: real, added: bool,
                            groups: Dict<string, seq<Item>>, dreport: Dict<string, StatusIndex>,
                            shared: StatusIndex)
  {
    && total == AdviceTotal(checks, advisor) && (added <==> AnySavings(checks, advisor))
    && groups == Grouped(checks, advisor)
    && dreport.Valid() && dreport.keys == FirstSeen(Categories(checks))
    && forall k :: k in dreport.entries ==> dreport.entries[k] == shared
  }

  /** One pass of the collecting loop extends the state by the next check. */
  lemma CollectStep(checks: seq<Check>, i: nat, advisor: Advisor, total: real, added: bool,
                    groups: Dict<string, seq<Item>>, dreport: Dict<string, StatusIndex>, shared: StatusIndex)
    requires i < |checks| && Collected(checks[..i], advisor, total, added, groups, dreport, shared)
    ensures var c := checks[i];
            var r := advisor(c.id);
            Collected(checks[..i + 1], advisor,
                      if r.costOptimizing.Some? then total + r.costOptimizing.value else total,
                      added || r.costOptimizing.Some?,
                      groups.Put(r.status, Group(groups, r.status) + [ItemOf(c, r)]),
                      dreport.Put(c.category, shared), shared)
  {
    var c := checks[i];
    AdviceStep(checks, i, advisor);
    var next := dreport.Put(c.category, shared);
    assert c.category in dreport.entries <==> c.category in dreport.keys;
    assert forall k :: k in next.entries ==> next.entries[k] == shared;
  }

  /** The collecting loop of `getAdvise`: the total, the shared status dictionary, and the
      category dictionary whose every value is that same status dictionary. */
  method CollectAdvice(checks: seq<Check>, advisor: Advisor)
    returns (total: real, added: bool, dcategory: StatusIndex, dreport: Dict<string, StatusIndex>)
    ensures fresh(dcategory)
    ensures Collected(checks, advisor, total, added, dcategory.groups, dreport, dcategory)
  {
    total, added := 0.0, false;
    dreport := Empty();
    dcategory := new StatusIndex();
    var i := 0;
    while i < |checks|
      invariant 0 <= i <= |checks|
      invariant fresh(dcategory)
      invariant Collected(checks[..i], advisor, total, added, dcategory.groups, dreport, dcategory)
    {
      var check := checks[i];
      var result := advisor(check.id);
      CollectStep(checks, i, advisor, total, added, dcategory.groups, dreport, dcategory);
      var ditem: Item;
      if result.costOptimizing.Some? {
        ditem := Item(check.id, check.name, Some(result.costOptimizing.value));
        total := total + result.costOptimizing.value;
        added := true;
      } else {
        ditem := Item(check.id, check.name, None);
      }
      dcategory.Append(result.status, ditem);
      dreport := dreport.Put(check.category, dcategory);
      i := i + 1;
    }
    assert checks[..i] == checks;
  }

  /** `getAdvise`: prints the report and returns the savings message. In verbose mode every
      category lists every record of the shared status dictionary; otherwise only the records of
      status `error` are printed. The message carries the total of the estimated savings. */
  method GetAdvise(checks: seq<Check>, advisor: Advisor, verbose: bool, show: real -> string)
    returns (printed: seq<string>, message: string)
    ensures printed == ReportLines(FirstSeen(Categories(checks)), Grouped(checks, advisor), verbose, show)
    ensures message == AdviceMessage(checks, advisor, show)
  {
    var totalSavings, added, dcategory, dreport := CollectAdvice(checks, advisor);
    GroupedSpec(checks, advisor);
    printed := PrintReport(dreport, dcategory, verbose, show);
    message := "You can save up to " + SavingsText(totalSavings, added, show) + "$";
  }

  /** The printing loops of `getAdvise`: each category in order, walking its status dictionary. */
  method PrintReport(dreport: Dict<string, StatusIndex>, dcategory: StatusIndex, verbose: bool, show: real -> string)
    returns (printed: seq<string>)
    requires dcategory.groups.Valid()
    requires forall k :: k in dreport.keys ==> k in dreport.entries && dreport.entries[k] == dcategory
    ensures printed == ReportLines(dreport.keys, dcategory.groups, verbose, show)
  {
    printed := [];
    var i := 0;
    while i < |dreport.keys|
      invariant 0 <= i <= |dreport.keys|
      invariant printed == ReportLines(dreport.keys[..i], dcategory.groups, verbose, show)
    {
      var k := dreport.keys[i];
      assert dreport.keys[..i + 1][..i] == dreport.keys[..i];
      var v := dreport.entries[k];
      var lines := PrintCategory(k, v, verbose, show);
      printed := printed + lines;
      i := i + 1;
    }
    assert dreport.keys[..i] == dreport.keys;
  }

  /** The printing of one category: its statuses in order, the records of those printed. */
  method PrintCategory(k: string, v: StatusIndex, verbose: bool, show: real -> string)
    returns (lines: seq<string>)
    requires v.groups.Valid()
    ensures lines == StatusLines(k, v.groups.keys, v.groups, verbose, show)
  {
    lines := [];
    var j := 0;
    while j < |v.groups.keys|
      invariant 0 <= j <= |v.groups.keys|
      invariant lines == StatusLines(k, v.groups.keys[..j], v.groups, verbose, show)
    {
      var k1 := v.groups.keys[j];
      assert v.groups.keys[..j + 1][..j] == v.groups.keys[..j];
      var v1 := v.groups.entries[k1];
      if verbose || k1 == "error" {
        var more := PrintItems(k, k1, v1, show);
        lines := lines + more;
      } else {
        assert lines + [] == lines;
      }
      j := j + 1;
    }
    assert v.groups.keys[..j] == v.groups.keys;
  }

  /** The lines of the records of one status, in order. */
  method PrintItems(k: string, k1: string, v1: seq<Item>, show: real -> string) returns (lines: seq<string>)
    ensures lines == ItemLines(k, k1, v1, show)
  {
    lines := [];
    var m := 0;
    while m < |v1|
      invariant 0 <= m <= |v1|
      invariant lines == ItemLines(k, k1, v1[..m], show)
    {
      var it := v1[m];
      assert v1[..m + 1][..m] == v1[..m];
      if it.savings.Some? {
        lines := lines + [k + ":" + k1 + ":" + it.name + ";" + show(it.savings.value)];
      } else {
        lines := lines + [k + ":" + k1 + ":" + it.name];
      }
      m := m + 1;
    }
    assert v1[..m] == v1;
  }
  // ---------------------------------------------------------------- command-line dispatch

  /** The parsed command line. The three options that take a value are `None` when absent. */
  datatype Flags = Flags(countByType: bool, user: Option<string>, deleteIdleElb: bool,
                         deleteIdleRds: bool, deleteOldVolumes: bool, getFlavors: bool, idleElb: bool,
                         idleRds: bool, listElb: bool, listEc2Instances: bool, listRds: bool,
                         startInstance: Option<string>, stopInstance: Option<string>,
                         trustedAdvisor: bool, oldVolumes: bool, verbose: bool)

  /** The actions the front end can run; `PrintHelp` is the usage text. */
  datatype Action =
    | CountByType | UserInstances(user: string) | CleanupElb | CleanupRds | CleanupOldVolumes
    | GetFlavors | IdleElb | IdleRds | ListElb | ListInstances | ListRds
    | StartInstance(id: string) | StopInstance(id: string) | TrustedAdvisor | OldVolumes
    | PrintHelp

  /** Python truthiness of an option value: present and non-empty. */
  predicate Truthy(o: Option<string>) {
    o.Some? && o.value != ""
  }

  /** The number of actions in the priority order. */
  const ActionCount: nat := 15

  /** Whether the flag of rank `k` in the priority order is set. */
  predicate Requested(f: Flags, k: nat) {
    match k
    case 0 => f.countByType
    case 1 => Truthy(f.user)
    case 2 => f.deleteIdleElb
    case 3 => f.deleteIdleRds
    case 4 => f.deleteOldVolumes
    case 5 => f.getFlavors
    case 6 => f.idleElb
    case 7 => f.idleRds
    case 8 => f.listElb
    case 9 => f.listEc2Instances
    case 10 => f.listRds
    case 11 => Truthy(f.startInstance)
    case 12 => Truthy(f.stopInstance)
    case 13 => f.trustedAdvisor
    case 14 => f.oldVolumes
    case _ => false
  }

  /** The action of rank `k` in the priority order. */
  function ActionAt(f: Flags, k: nat): Action
    requires k < ActionCount && Requested(f, k)
  {
    match k
    case 0 => CountByType
    case 1 => UserInstances(f.user.value)
    case 2 => CleanupElb
    case 3 => CleanupRds
    case 4 => CleanupOldVolumes
    case 5 => GetFlavors
    case 6 => IdleElb
    case 7 => IdleRds
    case 8 => ListElb
    case 9 => ListInstances
    case 10 => ListRds
    case 11 => StartInstance(f.startInstance.value)
    case 12 => StopInstance(f.stopInstance.value)
    case 13 => TrustedAdvisor
    case 14 => OldVolumes
  }

  /** The `if`/`elif` chain of the main block: exactly one action, that of the first set flag in
      the fixed order, and the usage text when no flag is set. `--verbose` selects nothing. */
  function Dispatch(f: Flags): Action {
    if f.countByType then CountByType
    else if Truthy(f.user) then UserInstances(f.user.value)
    else if f.deleteIdleElb then CleanupElb
    else if f.deleteIdleRds then CleanupRds
    else if f.deleteOldVolumes then CleanupOldVolumes
    else if f.getFlavors then GetFlavors
    else if f.idleElb then IdleElb
    else if f.idleRds then IdleRds
    else if f.listElb then ListElb
    else if f.listEc2Instances then ListInstances
    else if f.listRds then ListRds
    else if Truthy(f.startInstance) then StartInstance(f.startInstance.value)
    else if Truthy(f.stopInstance) then StopInstance(f.stopInstance.value)
    else if f.trustedAdvisor then TrustedAdvisor
    else if f.oldVolumes then OldVolumes
    else PrintHelp
  }

  /** Dispatch chooses the usage text exactly when no flag is set, and otherwise the action of
      the first set flag in the priority order. */
  lemma DispatchSpec(f: Flags)
    ensures Dispatch(f) == PrintHelp <==> forall k :: 0 <= k < ActionCount ==> !Requested(f, k)
    ensures forall k :: 0 <= k < ActionCount && Requested(f, k) && (forall j :: 0 <= j < k ==> !Requested(f, j))
                        ==> Dispatch(f) == ActionAt(f, k)
  {
    if forall k :: 0 <= k < ActionCount ==> !Requested(f, k) {
      assert !Requested(f, 0) && !Requested(f, 1) && !Requested(f, 2) && !Requested(f, 3) && !Requested(f, 4);
      assert !Requested(f, 5) && !Requested(f, 6) && !Requested(f, 7) && !Requested(f, 8) && !Requested(f, 9);
      assert !Requested(f, 10) && !Requested(f, 11) && !Requested(f, 12) && !Requested(f, 13) && !Requested(f, 14);
    }
    forall k | 0 <= k < ActionCount && Requested(f, k) && (forall j :: 0 <= j < k ==> !Requested(f, j))
      ensures Dispatch(f) == ActionAt(f, k)
    {
      assert k > 0 ==> !Requested(f, 0);
      assert k > 1 ==> !Requested(f, 1);
      assert k > 2 ==> !Requested(f, 2);
      assert k > 3 ==> !Requested(f, 3);
      assert k > 4 ==> !Requested(f, 4);
      assert k > 5 ==> !Requested(f, 5);
      assert k > 6 ==> !Requested(f, 6);
      assert k > 7 ==> !Requested(f, 7);
      assert k > 8 ==> !Requested(f, 8);
      assert k > 9 ==> !Requested(f, 9);
      assert k > 10 ==> !Requested(f, 10);
      assert k > 11 ==> !Requested(f, 11);
      assert k > 12 ==> !Requested(f, 12);
      assert k > 13 ==> !Requested(f, 13);
    }
  }

  /** What the main block ends with: the chosen action ran to completion, or the usage text was
      printed (no flag set, or the action raised). */
  datatype Outcome = Performed(action: Action, verbose: bool) | Usage

  /** The actions that raise whatever the provider answers: the flavour listing is looked up in
      the compute module, which does not define it, and starting or stopping an instance calls a
      client the compute module never defines. */
  predicate AlwaysRaises(a: Action) {
    a.GetFlavors? || a.StartInstance? || a.StopInstance?
  }

  /** The flag of rank `k` is the first one set in the priority order. */
  predicate FirstRequested(f: Flags, k: nat) {
    k < ActionCount && Requested(f, k) && forall j :: 0 <= j < k ==> !Requested(f, j)
  }

  /** The main block: dispatch inside a bare `try`, whose handler prints the usage text. `raises`
      tells whether an action raises; the actions of `AlwaysRaises` always do. With no flag set the
      run ends in the usage text; otherwise the action of the first set flag runs, and the run ends
      in the usage text exactly when that action raises. */
  function Run(f: Flags, raises: Action -> bool): (o: Outcome)
    ensures (forall k :: 0 <= k < ActionCount ==> !Requested(f, k)) ==> o.Usage?
    ensures forall k :: FirstRequested(f, k) ==>
              && (o.Usage? <==> AlwaysRaises(ActionAt(f, k)) || raises(ActionAt(f, k)))
              && (o.Performed? ==> o.action == ActionAt(f, k) && o.verbose == f.verbose)
  {
    DispatchSpec(f);
    var a := Dispatch(f);
    if a == PrintHelp || AlwaysRaises(a) || raises(a) then Usage else Performed(a, f.verbose)
  }
}
