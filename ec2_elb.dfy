/** Classic load balancers: the listing, the idle audit that cross-checks Trusted Advisor's
    "Idle Load Balancers" findings against live lookups, and the cleanup built on it. */
module Ec2Elb {
  import opened Common
  import opened Provider

  // ---------------------------------------------------------------- listing

  /** The verbose instance field as the loop builds it: a comma before every id. */
  function CommaPrefixed(ids: seq<string>): string {
    if |ids| == 0 then "" else CommaPrefixed(ids[..|ids| - 1]) + "," + ids[|ids| - 1]
  }

  /** Dropping the first character of the comma-prefixed ids gives their comma-join, and the
      empty string when there are none. */
  lemma {:induction false} CommaPrefixedJoin(ids: seq<string>)
    ensures DropFirst(CommaPrefixed(ids)) == Join(",", ids)
    ensures |ids| > 0 ==> CommaPrefixed(ids) == "," + Join(",", ids)
  {
    if |ids| > 1 {
      var init := ids[..|ids| - 1];
      var last := ids[|ids| - 1];
      CommaPrefixedJoin(init);
      JoinSnoc(",", init, last);
      assert init + [last] == ids;
      calc {
        CommaPrefixed(ids);
        CommaPrefixed(init) + "," + last;
        ("," + Join(",", init)) + "," + last;
        "," + (Join(",", init) + "," + last);
        "," + Join(",", ids);
      }
      assert DropFirst("," + Join(",", ids)) == Join(",", ids);
    } else if |ids| == 1 {
      assert ids[..0] == [];
    }
  }

  /** The entry listed for one load balancer: its name and comma-joined subnets, followed in
      verbose mode by its comma-joined zones and comma-joined registered instance ids. */
  function ElbLine(lb: LoadBalancer, verbose: bool): string {
    if verbose then
      lb.name + ";" + Join(",", lb.subnets) + ";" + Join(",", lb.zones) + ";" + Join(",", lb.instanceIds)
    else lb.name + ";" + Join(",", lb.subnets)
  }

  /** `listElb`: one entry per load balancer, in listing order. */
  method ListElb(lbs: seq<LoadBalancer>, verbose: bool) returns (res: seq<string>)
    ensures |res| == |lbs|
    ensures forall i :: 0 <= i < |lbs| ==> res[i] == ElbLine(lbs[i], verbose)
  {
    res := [];
    var i := 0;
    while i < |lbs|
      invariant 0 <= i <= |lbs|
      invariant |res| == i
      invariant forall k :: 0 <= k < i ==> res[k] == ElbLine(lbs[k], verbose)
    {
      var elb := lbs[i];
      if verbose {
        var instances := "";
        var j := 0;
        while j < |elb.instanceIds|
          invariant 0 <= j <= |elb.instanceIds|
          invariant instances == CommaPrefixed(elb.instanceIds[..j])
        {
          assert elb.instanceIds[..j + 1][..j] == elb.instanceIds[..j];
          instances := instances + "," + elb.instanceIds[j];
          j := j + 1;
        }
        assert elb.instanceIds[..j] == elb.instanceIds;
        CommaPrefixedJoin(elb.instanceIds);
        instances := DropFirst(instances);
        res := res + [elb.name + ";" + Join(",", elb.subnets) + ";" + Join(",", elb.zones) + ";" + instances];
      } else {
        res := res + [elb.name + ";" + Join(",", elb.subnets)];
      }
      i := i + 1;
    }
  }

  // ---------------------------------------------------------------- idle audit

  const IdleCategory: string := "cost_optimizing"
  const IdleCheckName: string := "Idle Load Balancers"
  const NoBackEnd: string := "No active back-end instances"
  /** The start of the verbose line reporting a deleted load balancer. */
  const ElbDeleted: string := "ELB with name: "

  /** Why the audit raised: a flagged resource whose metadata is too short for the position
      read, a load balancer the provider cannot describe, or a savings text `float` rejects. */
  datatype IdleError = MissingMetadata | UnknownLoadBalancer(name: string) | BadAmount(text: string)

  /** One append to the idle list, with the savings added for it. */
  datatype IdleEntry = IdleEntry(name: string, savings: real)

  /** Only the "Idle Load Balancers" check of the cost-optimizing category is read. */
  predicate IsIdleCheck(c: Check) {
    c.category == IdleCategory && c.name == IdleCheckName
  }

  /** The number of registered instances whose lookup reports `InvalidInstanceID.NotFound`;
      every other lookup error counts as an instance that exists. */
  function DanglingCount(ids: seq<string>, instance: string -> Lookup): (n: nat)
    ensures n <= |ids|
  {
    if |ids| == 0 then 0
    else DanglingCount(ids[..|ids| - 1], instance) + (if instance(ids[|ids| - 1]) == NotFound then 1 else 0)
  }

  /** Counting a prefix of the instances never gives more than counting all of them. */
  lemma {:induction false} DanglingPrefix(ids: seq<string>, k: nat, instance: string -> Lookup)
    requires k <= |ids|
    ensures DanglingCount(ids[..k], instance) <= DanglingCount(ids, instance)
    decreases |ids| - k
  {
    if k < |ids| {
      assert ids[..k + 1][..k] == ids[..k];
      DanglingPrefix(ids, k + 1, instance);
    } else {
      assert ids[..k] == ids;
    }
  }

  /** The savings of a flagged load balancer: metadata position 3 without its first character,
      read by `parse` (Python's `float`). */
  function Amount(md: seq<string>, parse: string -> Option<real>): Result<real, IdleError> {
    if |md| < 4 then Err(MissingMetadata)
    else match parse(DropFirst(md[3]))
      case None => Err(BadAmount(DropFirst(md[3])))
      case Some(a) => Ok(a)
  }

  /** `n` copies of one value, as made by `n` appends of it. */
  function Repeat<T>(x: T, n: nat): (r: seq<T>)
    ensures |r| == n
  {
    if n == 0 then [] else Repeat(x, n - 1) + [x]
  }

  /** The entries one flagged resource contributes: none unless its metadata holds the exact
      element "No active back-end instances"; otherwise one when the load balancer named at
      position 1 has no registered instance, plus one per registered instance that is not found. */
  function FlaggedEntries(fr: FlaggedResource, acct: Account, parse: string -> Option<real>)
    : Result<seq<IdleEntry>, IdleError>
  {
    var md := fr.metadata;
    if NoBackEnd !in md then Ok([])
    else if |md| < 2 then Err(MissingMetadata)
    else match acct.registered(md[1])
      case None => Err(UnknownLoadBalancer(md[1]))
      case Some(ids) =>
        var n := (if |ids| == 0 then 1 else 0) + DanglingCount(ids, acct.instance);
        if n == 0 then Ok([])
        else match Amount(md, parse)
          case Err(e) => Err(e)
          case Ok(a) => Ok(Repeat(IdleEntry(md[1], a), n))
  }

  /** The entries of a list of flagged resources, in order; the first error ends the pass. */
  function ResourcesEntries(frs: seq<FlaggedResource>, acct: Account, parse: string -> Option<real>)
    : Result<seq<IdleEntry>, IdleError>
  {
    if |frs| == 0 then Ok([])
    else match ResourcesEntries(frs[..|frs| - 1], acct, parse)
      case Err(e) => Err(e)
      case Ok(es) =>
        match FlaggedEntries(frs[|frs| - 1], acct, parse)
        case Err(e) => Err(e)
        case Ok(fs) => Ok(es + fs)
  }

  function CheckEntries(c: Check, acct: Account, parse: string -> Option<real>)
    : Result<seq<IdleEntry>, IdleError>
  {
    if IsIdleCheck(c) then ResourcesEntries(acct.advisor(c.id).flagged, acct, parse) else Ok([])
  }

  /** The entries of the whole audit, check by check; the first error ends the pass. */
  function IdleEntries(checks: seq<Check>, acct: Account, parse: string -> Option<real>)
    : Result<seq<IdleEntry>, IdleError>
  {
    if |checks| == 0 then Ok([])
    else match IdleEntries(checks[..|checks| - 1], acct, parse)
      case Err(e) => Err(e)
      case Ok(es) =>
        match CheckEntries(checks[|checks| - 1], acct, parse)
        case Err(e) => Err(e)
        case Ok(cs) => Ok(es + cs)
  }

  /** The names of a list of entries, in order. */
  function Names(es: seq<IdleEntry>): (ns: seq<string>)
    ensures |ns| == |es|
  {
    if |es| == 0 then [] else Names(es[..|es| - 1]) + [es[|es| - 1].name]
  }

  /** The savings of a list of entries, added in order. */
  function TotalSavings(es: seq<IdleEntry>): real {
    if |es| == 0 then 0.0 else TotalSavings(es[..|es| - 1]) + es[|es| - 1].savings
  }

  /** Names and savings distribute over concatenation. */
  lemma {:induction false} EntriesAppend(a: seq<IdleEntry>, b: seq<IdleEntry>)
    ensures Names(a + b) == Names(a) + Names(b)
    ensures TotalSavings(a + b) == TotalSavings(a) + TotalSavings(b)
  {
    if |b| == 0 {
      assert a + b == a;
    } else {
      var b' := b[..|b| - 1];
      assert (a + b)[..|a + b| - 1] == a + b';
      EntriesAppend(a, b');
    }
  }

  /** Adding the entries `fs` to names and a total that came from `cs` gives those of `cs + fs`. */
  lemma RunningAppend(names0: seq<string>, total0: real, cs: seq<IdleEntry>, fs: seq<IdleEntry>)
    ensures (names0 + Names(cs)) + Names(fs) == names0 + Names(cs + fs)
    ensures (total0 + TotalSavings(cs)) + TotalSavings(fs) == total0 + TotalSavings(cs + fs)
  {
    EntriesAppend(cs, fs);
  }


  /** `a` added `n` times to zero. */
  function Scaled(a: real, n: nat): real {
    if n == 0 then 0.0 else Scaled(a, n - 1) + a
  }

  /** Adding the same amount `n` times adds `n` times that amount. */
  lemma {:induction false} ScaledIsProduct(a: real, n: nat)
    ensures Scaled(a, n) == (n as real) * a
  {
    if n > 0 {
      ScaledIsProduct(a, n - 1);
      var m: real := (n - 1) as real;
      assert n as real == m + 1.0;
      assert (m + 1.0) * a == m * a + a;
    }
  }

  /** A run of `n` equal entries names the load balancer `n` times and adds its savings `n` times. */
  lemma {:induction false} RepeatParts(e: IdleEntry, n: nat)
    ensures Names(Repeat(e, n)) == Repeat(e.name, n)
    ensures TotalSavings(Repeat(e, n)) == Scaled(e.savings, n)
  {
    if n > 0 {
      var r := Repeat(e, n);
      assert r[..n - 1] == Repeat(e, n - 1);
      RepeatParts(e, n - 1);
    }
  }

  /** The audit's outcome when nothing raises. */
  datatype IdleReport = IdleReport(names: seq<string>, total: real, message: string)

  /** The message the audit prints: the total becomes a float only once something is appended. */
  function IdleMessage(es: seq<IdleEntry>, show: real -> string): string {
    "You can save up to " + SavingsText(TotalSavings(es), |es| > 0, show) + "$"
  }

  /** What the audit returns: the names and total of `IdleEntries` with the printed message, or
      the error that ends it. */
  function IdleOutcome(checks: seq<Check>, acct: Account, parse: string -> Option<real>, show: real -> string)
    : Result<IdleReport, IdleError>
  {
    match IdleEntries(checks, acct, parse)
    case Err(e) => Err(e)
    case Ok(es) => Ok(IdleReport(Names(es), TotalSavings(es), IdleMessage(es, show)))
  }

  /** `getIdleELB`: reads the "Idle Load Balancers" check, keeps the flagged resources marked
      "No active back-end instances", and appends the named load balancer once when it has no
      registered instance and once more per registered instance that is not found, adding the
      parsed savings for every append. The returned names are those of `IdleEntries`, the total
      is the sum of their savings, and an exception ends the audit with the error `IdleEntries`
      gives. */
  method GetIdleElb(checks: seq<Check>, acct: Account, parse: string -> Option<real>, show: real -> string)
    returns (r: Result<IdleReport, IdleError>)
    ensures r == IdleOutcome(checks, acct, parse, show)
  {
    var lIdleElb: seq<string> := [];
    var totalSavings: real := 0.0;
    ghost var es: seq<IdleEntry> := [];
    var i := 0;
    while i < |checks|
      invariant 0 <= i <= |checks|
      invariant IdleEntries(checks[..i], acct, parse) == Ok(es)
      invariant lIdleElb == Names(es) && totalSavings == TotalSavings(es)
    {
      var it := checks[i];
      assert checks[..i + 1][..i] == checks[..i];
      if it.category == IdleCategory && it.name == IdleCheckName {
        var step := ScanCheck(acct.advisor(it.id).flagged, acct, parse, lIdleElb, totalSavings);
        if step.Err? {
          IdleErrSticky(checks, i, acct, parse, step.error);
          return Err(step.error);
        }
        ghost var cs := CheckEntries(it, acct, parse).value;
        EntriesAppend(es, cs);
        lIdleElb, totalSavings, es := step.value.0, step.value.1, es + cs;
      } else {
        assert es + [] == es;
      }
      i := i + 1;
    }
    assert checks[..i] == checks;
    r := Ok(IdleReport(lIdleElb, totalSavings, "You can save up to " + SavingsText(totalSavings, |lIdleElb| > 0, show) + "$"));
  }

  /** The loop over the flagged resources of the idle check: the running names and total grow by
      the names and savings of the resources' entries. */
  method ScanCheck(frs: seq<FlaggedResource>, acct: Account, parse: string -> Option<real>,
                   names0: seq<string>, total0: real)
    returns (r: Result<(seq<string>, real), IdleError>)
    ensures ResourcesEntries(frs, acct, parse).Err? ==> r == Err(ResourcesEntries(frs, acct, parse).error)
    ensures ResourcesEntries(frs, acct, parse).Ok? ==>
              var cs := ResourcesEntries(frs, acct, parse).value;
              r == Ok((names0 + Names(cs), total0 + TotalSavings(cs)))
  {
    var lIdleElb, totalSavings := names0, total0;
    ghost var cs: seq<IdleEntry> := [];
    var j := 0;
    while j < |frs|
      invariant 0 <= j <= |frs|
      invariant ResourcesEntries(frs[..j], acct, parse) == Ok(cs)
      invariant lIdleElb == names0 + Names(cs) && totalSavings == total0 + TotalSavings(cs)
    {
      var elb := frs[j];
      var step := ScanFlagged(elb, acct, parse, lIdleElb, totalSavings);
      ResourcesStep(frs, j, acct, parse, cs);
      if step.Err? {
        ResourcesErrSticky(frs, j + 1, acct, parse);
        return Err(step.error);
      }
      ghost var fs := FlaggedEntries(elb, acct, parse).value;
      RunningAppend(names0, total0, cs, fs);
      lIdleElb, totalSavings, cs := step.value.0, step.value.1, cs + fs;
      j := j + 1;
    }
    assert frs[..j] == frs;
    return Ok((lIdleElb, totalSavings));
  }

  /** The body of the flagged-resource loop: one resource, added to the running names and total. */
  method ScanFlagged(elb: FlaggedResource, acct: Account, parse: string -> Option<real>,
                     names0: seq<string>, total0: real)
    returns (r: Result<(seq<string>, real), IdleError>)
    ensures FlaggedEntries(elb, acct, parse).Err? ==> r == Err(FlaggedEntries(elb, acct, parse).error)
    ensures FlaggedEntries(elb, acct, parse).Ok? ==>
              var fs := FlaggedEntries(elb, acct, parse).value;
              r == Ok((names0 + Names(fs), total0 + TotalSavings(fs)))
  {
    var md := elb.metadata;
    if NoBackEnd !in md {
      assert names0 + Names([]) == names0;
      return Ok((names0, total0));
    }
    if |md| < 2 {
      return Err(MissingMetadata);
    }
    var name := md[1];
    var reg := acct.registered(name);
    if reg.None? {
      return Err(UnknownLoadBalancer(name));
    }
    var linstances := reg.value;
    r := ScanRegistered(name, md, linstances, acct, parse, names0, total0);
    FlaggedRun(elb, acct, parse);
    ghost var n := (if |linstances| == 0 then 1 else 0) + DanglingCount(linstances, acct.instance);
    if n == 0 {
      assert FlaggedEntries(elb, acct, parse) == Ok([]);
      assert names0 + Names([]) == names0;
    } else if Amount(md, parse).Ok? {
      ghost var fs := FlaggedEntries(elb, acct, parse).value;
      assert Names(fs) == Repeat(name, n) && TotalSavings(fs) == Scaled(Amount(md, parse).value, n);
    }
  }

  /** A flagged resource with the marker whose load balancer is described: its entries name the
      load balancer `n` times and add its savings `n` times, where `n` counts one for an empty
      instance list and one per dangling instance. */
  lemma FlaggedRun(fr: FlaggedResource, acct: Account, parse: string -> Option<real>)
    requires NoBackEnd in fr.metadata && |fr.metadata| >= 2 && acct.registered(fr.metadata[1]).Some?
    ensures var md := fr.metadata;
            var ids := acct.registered(md[1]).value;
            var n := (if |ids| == 0 then 1 else 0) + DanglingCount(ids, acct.instance);
            var fe := FlaggedEntries(fr, acct, parse);
            if n == 0 then fe == Ok([])
            else match Amount(md, parse)
              case Err(e) => fe == Err(e)
              case Ok(a) => fe.Ok? && Names(fe.value) == Repeat(md[1], n) && TotalSavings(fe.value) == Scaled(a, n)
  {
    var md := fr.metadata;
    var ids := acct.registered(md[1]).value;
    var n := (if |ids| == 0 then 1 else 0) + DanglingCount(ids, acct.instance);
    if n == 0 {
      assert FlaggedEntries(fr, acct, parse) == Ok([]);
    } else if Amount(md, parse).Err? {
      assert FlaggedEntries(fr, acct, parse) == Err(Amount(md, parse).error);
    } else {
      var e := IdleEntry(md[1], Amount(md, parse).value);
      assert FlaggedEntries(fr, acct, parse) == Ok(Repeat(e, n));
      RepeatParts(e, n);
    }
  }

  /** The rest of the body once the load balancer is described: one append when it has no
      registered instance, then the instance loop. */
  method ScanRegistered(name: string, md: seq<string>, linstances: seq<string>, acct: Account,
                        parse: string -> Option<real>, names0: seq<string>, total0: real)
    returns (r: Result<(seq<string>, real), IdleError>)
    ensures var n := (if |linstances| == 0 then 1 else 0) + DanglingCount(linstances, acct.instance);
            if n == 0 then r == Ok((names0, total0))
            else match Amount(md, parse)
              case Err(e) => r == Err(e)
              case Ok(a) => r == Ok((names0 + Repeat(name, n), total0 + Scaled(a, n)))
  {
    var lIdleElb, totalSavings := names0, total0;
    if |linstances| == 0 {
      lIdleElb := lIdleElb + [name];
      var a := Amount(md, parse);
      if a.Err? {
        return Err(a.error);
      }
      totalSavings := totalSavings + a.value;
      assert Repeat(name, 1) == [name];
    }
    r := ScanInstances(name, md, linstances, acct, parse, lIdleElb, totalSavings);
  }

  /** The loop over the registered instances of the load balancer `name`: one more append, with the
      parsed savings, per instance that is not found. */
  method ScanInstances(name: string, md: seq<string>, linstances: seq<string>, acct: Account,
                       parse: string -> Option<real>, names0: seq<string>, total0: real)
    returns (r: Result<(seq<string>, real), IdleError>)
    ensures var n := DanglingCount(linstances, acct.instance);
            if n == 0 then r == Ok((names0, total0))
            else match Amount(md, parse)
              case Err(e) => r == Err(e)
              case Ok(a) => r == Ok((names0 + Repeat(name, n), total0 + Scaled(a, n)))
  {
    var lIdleElb, totalSavings := names0, total0;
    ghost var count: nat := 0;
    ghost var amount: real := 0.0;
    var k := 0;
    while k < |linstances|
      invariant 0 <= k <= |linstances|
      invariant count == DanglingCount(linstances[..k], acct.instance)
      invariant count > 0 ==> Amount(md, parse) == Ok(amount)
      invariant lIdleElb == names0 + Repeat(name, count)
      invariant totalSavings == total0 + Scaled(amount, count)
    {
      var instance := linstances[k];
      assert linstances[..k + 1][..k] == linstances[..k];
      // a lookup error other than InvalidInstanceID.NotFound leaves the instance counted as existing
      var haveInstance := acct.instance(instance) != NotFound;
      if !haveInstance {
        lIdleElb := lIdleElb + [name];
        var a := Amount(md, parse);
        if a.Err? {
          DanglingPrefix(linstances, k + 1, acct.instance);
          return Err(a.error);
        }
        totalSavings := totalSavings + a.value;
        amount, count := a.value, count + 1;
      }
      k := k + 1;
    }
    assert linstances[..k] == linstances;
    return Ok((lIdleElb, totalSavings));
  }

  /** Reading one more resource extends the entries of the prefix by that resource's entries. */
  lemma ResourcesStep(frs: seq<FlaggedResource>, j: nat, acct: Account, parse: string -> Option<real>,
                      cs: seq<IdleEntry>)
    requires j < |frs| && ResourcesEntries(frs[..j], acct, parse) == Ok(cs)
    ensures FlaggedEntries(frs[j], acct, parse).Ok? ==>
              ResourcesEntries(frs[..j + 1], acct, parse) == Ok(cs + FlaggedEntries(frs[j], acct, parse).value)
    ensures FlaggedEntries(frs[j], acct, parse).Err? ==>
              ResourcesEntries(frs[..j + 1], acct, parse) == Err(FlaggedEntries(frs[j], acct, parse).error)
  {
    assert frs[..j + 1][..j] == frs[..j];
  }

  /** Once a prefix of the resources raises, the whole list raises with the same error. */
  lemma ResourcesErrSticky(frs: seq<FlaggedResource>, j: nat, acct: Account, parse: string -> Option<real>)
    requires 0 < j <= |frs| && ResourcesEntries(frs[..j], acct, parse).Err?
    ensures ResourcesEntries(frs, acct, parse) == ResourcesEntries(frs[..j], acct, parse)
    decreases |frs| - j
  {
    if j < |frs| {
      assert frs[..j + 1][..j] == frs[..j];
      ResourcesErrSticky(frs, j + 1, acct, parse);
    } else {
      assert frs[..j] == frs;
    }
  }

  /** An error raised while reading check `i` is the error of the whole audit. */
  lemma IdleErrSticky(checks: seq<Check>, i: nat, acct: Account, parse: string -> Option<real>, e: IdleError)
    requires i < |checks| && IdleEntries(checks[..i], acct, parse).Ok?
    requires CheckEntries(checks[i], acct, parse) == Err(e)
    ensures IdleEntries(checks, acct, parse) == Err(e)
    decreases |checks| - i
  {
    assert checks[..i + 1][..i] == checks[..i];
    if i + 1 < |checks| {
      IdleErrStickyFrom(checks, i + 1, acct, parse, e);
    } else {
      assert checks[..i + 1] == checks;
    }
  }

  lemma IdleErrStickyFrom(checks: seq<Check>, j: nat, acct: Account, parse: string -> Option<real>, e: IdleError)
    requires 0 < j <= |checks| && IdleEntries(checks[..j], acct, parse) == Err(e)
    ensures IdleEntries(checks, acct, parse) == Err(e)
    decreases |checks| - j
  {
    if j < |checks| {
      assert checks[..j + 1][..j] == checks[..j];
      IdleErrStickyFrom(checks, j + 1, acct, parse, e);
    } else {
      assert checks[..j] == checks;
    }
  }
  // ---------------------------------------------------------------- properties of the audit

  /** Entry `e` comes from the flagged resource `fr`: the resource carries the marker, names the
      load balancer at position 1 and gives the entry's savings at position 3. */
  ghost predicate FromResource(e: IdleEntry, fr: FlaggedResource, parse: string -> Option<real>) {
    var md := fr.metadata;
    NoBackEnd in md && |md| >= 2 && e.name == md[1] && Amount(md, parse) == Ok(e.savings)
  }

  lemma {:induction false} RepeatElements(e: IdleEntry, n: nat)
    ensures forall x :: x in Repeat(e, n) ==> x == e
  {
    if n > 0 {
      RepeatElements(e, n - 1);
    }
  }

  /** Every entry of a flagged resource is its load balancer with its savings. */
  lemma FlaggedSound(fr: FlaggedResource, acct: Account, parse: string -> Option<real>)
    requires FlaggedEntries(fr, acct, parse).Ok?
    ensures forall e :: e in FlaggedEntries(fr, acct, parse).value ==> FromResource(e, fr, parse)
  {
    var md := fr.metadata;
    if NoBackEnd in md {
      var ids := acct.registered(md[1]).value;
      var n := (if |ids| == 0 then 1 else 0) + DanglingCount(ids, acct.instance);
      if n > 0 {
        RepeatElements(IdleEntry(md[1], Amount(md, parse).value), n);
      }
    }
  }

  /** Every entry of a list of flagged resources comes from one of them. */
  lemma {:induction false} ResourcesSound(frs: seq<FlaggedResource>, acct: Account, parse: string -> Option<real>)
    requires ResourcesEntries(frs, acct, parse).Ok?
    ensures forall e :: e in ResourcesEntries(frs, acct, parse).value ==>
              exists k :: 0 <= k < |frs| && FromResource(e, frs[k], parse)
  {
    if |frs| > 0 {
      var init := frs[..|frs| - 1];
      var last := frs[|frs| - 1];
      ResourcesSound(init, acct, parse);
      FlaggedSound(last, acct, parse);
      var es := ResourcesEntries(init, acct, parse).value;
      var fs := FlaggedEntries(last, acct, parse).value;
      forall e | e in es + fs
        ensures exists k :: 0 <= k < |frs| && FromResource(e, frs[k], parse)
      {
        if e in es {
          var k :| 0 <= k < |init| && FromResource(e, init[k], parse);
          assert frs[k] == init[k];
        } else {
          assert FromResource(e, frs[|frs| - 1], parse);
        }
      }
    }
  }

  /** Soundness of the audit: every reported entry is a load balancer named by a flagged resource
      of an "Idle Load Balancers" check of the cost-optimizing category, with that resource's
      marker and savings. */
  lemma {:induction false} IdleSound(checks: seq<Check>, acct: Account, parse: string -> Option<real>)
    requires IdleEntries(checks, acct, parse).Ok?
    ensures forall e :: e in IdleEntries(checks, acct, parse).value ==>
              exists i, k :: 0 <= i < |checks| && IsIdleCheck(checks[i])
                             && 0 <= k < |acct.advisor(checks[i].id).flagged|
                             && FromResource(e, acct.advisor(checks[i].id).flagged[k], parse)
  {
    if |checks| > 0 {
      var init := checks[..|checks| - 1];
      var c := checks[|checks| - 1];
      IdleSound(init, acct, parse);
      var es := IdleEntries(init, acct, parse).value;
      var cs := CheckEntries(c, acct, parse).value;
      if IsIdleCheck(c) {
        ResourcesSound(acct.advisor(c.id).flagged, acct, parse);
      }
      forall e | e in es + cs
        ensures exists i, k :: 0 <= i < |checks| && IsIdleCheck(checks[i])
                               && 0 <= k < |acct.advisor(checks[i].id).flagged|
                               && FromResource(e, acct.advisor(checks[i].id).flagged[k], parse)
      {
        if e in es {
          var i, k :| 0 <= i < |init| && IsIdleCheck(init[i])
                      && 0 <= k < |acct.advisor(init[i].id).flagged|
                      && FromResource(e, acct.advisor(init[i].id).flagged[k], parse);
          assert checks[i] == init[i];
        } else {
          var frs := acct.advisor(c.id).flagged;
          var k :| 0 <= k < |frs| && FromResource(e, frs[k], parse);
          assert checks[|checks| - 1] == c;
        }
      }
    }
  }

  /** When no registered instance is reported `InvalidInstanceID.NotFound`, none is dangling. */
  lemma {:induction false} NoDangling(ids: seq<string>, instance: string -> Lookup)
    requires forall k :: 0 <= k < |ids| ==> instance(ids[k]) != NotFound
    ensures DanglingCount(ids, instance) == 0
  {
    if |ids| > 0 {
      NoDangling(ids[..|ids| - 1], instance);
    }
  }

  /** A load balancer with registered instances, none of which is reported missing, is not idle:
      an instance whose lookup fails with any other error counts as existing. */
  lemma LookupErrorsCountAsFound(fr: FlaggedResource, acct: Account, parse: string -> Option<real>)
    requires |fr.metadata| >= 2
    requires acct.registered(fr.metadata[1]).Some?
    requires var ids := acct.registered(fr.metadata[1]).value;
             |ids| > 0 && forall k :: 0 <= k < |ids| ==> acct.instance(ids[k]) != NotFound
    ensures FlaggedEntries(fr, acct, parse) == Ok([])
  {
    NoDangling(acct.registered(fr.metadata[1]).value, acct.instance);
  }

  /** Only the `NotFound` outcome of a lookup matters: two lookups that agree on which instances
      are not found give the same dangling count. */
  lemma {:induction false} DanglingOnlyNotFound(ids: seq<string>, f: string -> Lookup, g: string -> Lookup)
    requires forall k :: 0 <= k < |ids| ==> (f(ids[k]) == NotFound <==> g(ids[k]) == NotFound)
    ensures DanglingCount(ids, f) == DanglingCount(ids, g)
  {
    if |ids| > 0 {
      DanglingOnlyNotFound(ids[..|ids| - 1], f, g);
    }
  }

  /** The checks the audit reads, in order. */
  function IdleChecks(checks: seq<Check>): (r: seq<Check>)
    ensures |r| <= |checks|
    ensures forall c :: c in r ==> c in checks && IsIdleCheck(c)
  {
    if |checks| == 0 then []
    else
      var rest := IdleChecks(checks[..|checks| - 1]);
      var c := checks[|checks| - 1];
      if IsIdleCheck(c) then rest + [c] else rest
  }

  /** Checks other than "Idle Load Balancers" of the cost-optimizing category play no part. */
  lemma {:induction false} OnlyIdleChecksMatter(checks: seq<Check>, acct: Account, parse: string -> Option<real>)
    ensures IdleEntries(checks, acct, parse) == IdleEntries(IdleChecks(checks), acct, parse)
  {
    if |checks| > 0 {
      var init := checks[..|checks| - 1];
      var c := checks[|checks| - 1];
      OnlyIdleChecksMatter(init, acct, parse);
      if IsIdleCheck(c) {
        var r := IdleChecks(init) + [c];
        assert r[..|r| - 1] == IdleChecks(init);
      } else {
        match IdleEntries(init, acct, parse)
        case Err(_) =>
        case Ok(es) => assert es + [] == es;
      }
    }
  }

  // ---------------------------------------------------------------- cleanup

  /** `cleanupELB`: runs the audit (which prints its savings message) and asks for the deletion of
      every reported name in order, duplicates included; unlike the volume cleanup, the request
      carries no dry-run flag. `succeeds` tells whether a delete returns normally; the first one
      that raises ends the batch. `calls` are the names whose deletion was requested, and
      `completed` is false when the audit or a delete raised. */
  method CleanupElb(checks: seq<Check>, acct: Account, parse: string -> Option<real>, show: real -> string,
                    verbose: bool, succeeds: string -> bool)
    returns (audit: Result<IdleReport, IdleError>, calls: seq<string>, printed: seq<string>, completed: bool)
    ensures audit == IdleOutcome(checks, acct, parse, show)
    ensures audit.Err? ==> calls == [] && printed == [] && !completed
    ensures audit.Ok? ==>
              var names := audit.value.names;
              var n := FirstRefused(names, succeeds);
              && calls == names[..if n < |names| then n + 1 else n]
              && (completed <==> n == |names|)
              && printed == [audit.value.message] + (if verbose then DeletedLines(ElbDeleted, names[..n]) else [])
  {
    audit := GetIdleElb(checks, acct, parse, show);
    calls, printed, completed := [], [], false;
    if audit.Err? {
      return;
    }
    var deleted;
    calls, deleted, completed := DeleteElbs(audit.value.names, verbose, succeeds);
    printed := [audit.value.message] + deleted;
  }

  /** The delete loop of `cleanupELB`: `deleteELB` for each name in order, until one raises. */
  method DeleteElbs(lelb: seq<string>, verbose: bool, succeeds: string -> bool)
    returns (calls: seq<string>, printed: seq<string>, completed: bool)
    ensures var n := FirstRefused(lelb, succeeds);
            && calls == lelb[..if n < |lelb| then n + 1 else n]
            && (completed <==> n == |lelb|)
            && printed == if verbose then DeletedLines(ElbDeleted, lelb[..n]) else []
  {
    ghost var n := FirstRefused(lelb, succeeds);
    calls, printed := [], [];
    var i := 0;
    while i < |lelb|
      invariant 0 <= i <= n
      invariant calls == lelb[..i]
      invariant printed == if verbose then DeletedLines(ElbDeleted, lelb[..i]) else []
    {
      var elb := lelb[i];
      assert lelb[..i + 1][..i] == lelb[..i];
      calls := calls + [elb];
      if !succeeds(elb) {
        assert i == n;
        return calls, printed, false;
      }
      if verbose {
        printed := printed + [ElbDeleted + elb + " deleted"];
      }
      i := i + 1;
    }
    assert lelb[..i] == lelb;
    completed := true;
  }
}
