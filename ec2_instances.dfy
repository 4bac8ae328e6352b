/** Compute instances: the listing with its running count, and the count per instance type. */
module Ec2Instances {
  import opened Common
  import opened Dicts
  import opened Provider

  /** The part a tag adds to a verbose instance line: the value and a colon for the
      `Description`, `Owner` and `ManagedBy` tags, nothing for any other tag. */
  function TagPart(t: Tag): string {
    if t.key == "Description" then t.value + ":"
    else if t.key == "Owner" then t.value + ":"
    else if t.key == "ManagedBy" then t.value + ":"
    else ""
  }

  /** The parts of a tag list, in tag order. */
  function TagSuffix(tags: seq<Tag>): string {
    if |tags| == 0 then "" else TagSuffix(tags[..|tags| - 1]) + TagPart(tags[|tags| - 1])
  }

  /** The start of a verbose instance line, before the tag part. */
  function VerboseHead(inst: Instance): string {
    inst.id + ":" + inst.instanceType + "," + inst.state + ";" + inst.privateIp + ";"
  }

  /** A non-verbose instance line. */
  function BriefLine(inst: Instance): string {
    inst.id + ":" + inst.instanceType + "," + inst.state
  }

  /** The line printed for one instance, or `None` when none is: in verbose mode an instance
      without a tag list makes the tag loop raise, and the handler skips to the next instance. */
  function InstanceLine(inst: Instance, verbose: bool): (line: Option<string>)
    ensures line.None? <==> verbose && inst.tags.None?
  {
    if verbose then
      match inst.tags
      case None => None
      case Some(tags) => Some(VerboseHead(inst) + TagSuffix(tags))
    else Some(BriefLine(inst))
  }

  /** The instance lines printed for a listing, in listing order. */
  function InstanceLines(insts: seq<Instance>, verbose: bool): seq<string> {
    if |insts| == 0 then []
    else
      var rest := InstanceLines(insts[..|insts| - 1], verbose);
      match InstanceLine(insts[|insts| - 1], verbose)
      case None => rest
      case Some(line) => rest + [line]
  }

  /** The number of instances that have no tag list. */
  function Untagged(insts: seq<Instance>): (n: nat)
    ensures n <= |insts|
  {
    if |insts| == 0 then 0
    else Untagged(insts[..|insts| - 1]) + (if insts[|insts| - 1].tags.None? then 1 else 0)
  }

  /** Every instance is printed except, in verbose mode, the untagged ones; so in verbose mode the
      reported count runs ahead of the printed lines by the number of untagged instances. */
  lemma {:induction false} InstanceLinesCount(insts: seq<Instance>, verbose: bool)
    ensures |InstanceLines(insts, verbose)| == |insts| - (if verbose then Untagged(insts) else 0)
  {
    if |insts| > 0 {
      InstanceLinesCount(insts[..|insts| - 1], verbose);
    }
  }

  /** `listInstances`: prints one line per instance (see `InstanceLine`) and a final
      `Found <nb> instances`, where `nb` counts every instance of the listing. */
  method ListInstances(insts: seq<Instance>, verbose: bool) returns (printed: seq<string>, nb: nat)
    ensures nb == |insts|
    ensures printed == InstanceLines(insts, verbose) + ["Found " + NatToString(nb) + " instances"]
  {
    nb := 0;
    printed := [];
    var i := 0;
    while i < |insts|
      invariant 0 <= i <= |insts|
      invariant nb == i
      invariant printed == InstanceLines(insts[..i], verbose)
    {
      var instance := insts[i];
      assert insts[..i + 1][..i] == insts[..i];
      var server: string;
      if verbose {
        server := VerboseHead(instance);
        nb := nb + 1;
        if instance.tags.None? {
          // iterating over a missing tag list raises; the handler continues with the next instance
          i := i + 1;
          continue;
        }
        server := AppendTags(server, instance.tags.value);
      } else {
        nb := nb + 1;
        server := BriefLine(instance);
      }
      printed := printed + [server];
      i := i + 1;
    }
    assert insts[..|insts|] == insts;
    printed := printed + ["Found " + NatToString(nb) + " instances"];
  }

  /** The tag loop of a verbose instance line: the parts of the tags, in tag order, after `server0`. */
  method AppendTags(server0: string, tags: seq<Tag>) returns (server: string)
    ensures server == server0 + TagSuffix(tags)
  {
    server := server0;
    var j := 0;
    while j < |tags|
      invariant 0 <= j <= |tags|
      invariant server == server0 + TagSuffix(tags[..j])
    {
      var tag := tags[j];
      assert tags[..j + 1][..j] == tags[..j];
      assert TagSuffix(tags[..j + 1]) == TagSuffix(tags[..j]) + TagPart(tag);
      if tag.key == "Description" {
        server := server + tag.value + ":";
      }
      if tag.key == "Owner" {
        server := server + tag.value + ":";
      }
      if tag.key == "ManagedBy" {
        server := server + tag.value + ":";
      }
      j := j + 1;
    }
    assert tags[..|tags|] == tags;
  }

  /** How many instances of the listing have type `t`. */
  function TypeCount(insts: seq<Instance>, t: string): (n: nat)
    ensures n <= |insts|
  {
    if |insts| == 0 then 0
    else TypeCount(insts[..|insts| - 1], t) + (if insts[|insts| - 1].instanceType == t then 1 else 0)
  }

  /** A type that no instance has is counted zero times. */
  lemma {:induction false} TypeCountAbsent(insts: seq<Instance>, t: string)
    requires forall k :: 0 <= k < |insts| ==> insts[k].instanceType != t
    ensures TypeCount(insts, t) == 0
  {
    if |insts| > 0 {
      TypeCountAbsent(insts[..|insts| - 1], t);
    }
  }

  function AsInt(n: nat): int { n }

  /** `counts` holds the per-type counts of the first `n` instances of the listing. */
  ghost predicate Tallied(counts: Dict<string, nat>, insts: seq<Instance>, n: nat)
    requires n <= |insts|
  {
    && (forall k :: 0 <= k < n ==> insts[k].instanceType in counts.entries)
    && (forall t :: t in counts.entries ==> counts.entries[t] == TypeCount(insts[..n], t) > 0)
  }

  /** The insert-or-increment of one more instance's type extends the tally by that instance. */
  lemma TallyStep(counts: Dict<string, nat>, insts: seq<Instance>, i: nat)
    requires i < |insts| && Tallied(counts, insts, i)
    ensures var ty := insts[i].instanceType;
            Tallied(counts.Put(ty, if ty in counts.entries then counts.entries[ty] + 1 else 1), insts, i + 1)
  {
    var ty := insts[i].instanceType;
    var v: nat := if ty in counts.entries then counts.entries[ty] + 1 else 1;
    var next := counts.Put(ty, v);
    forall k | 0 <= k < i + 1 ensures insts[k].instanceType in next.entries {
      if k < i {
        assert insts[k].instanceType in counts.entries;
      }
    }
    TallyCounts(counts, insts, i);
  }

  lemma TallyCounts(counts: Dict<string, nat>, insts: seq<Instance>, i: nat)
    requires i < |insts|
    requires forall k :: 0 <= k < i ==> insts[k].instanceType in counts.entries
    requires forall t :: t in counts.entries ==> counts.entries[t] == TypeCount(insts[..i], t) > 0
    ensures var ty := insts[i].instanceType;
            var next := counts.entries[ty := if ty in counts.entries then counts.entries[ty] + 1 else 1];
            forall t :: t in next ==> next[t] == TypeCount(insts[..i + 1], t) > 0
  {
    var ty := insts[i].instanceType;
    var next := counts.entries[ty := if ty in counts.entries then counts.entries[ty] + 1 else 1];
    assert insts[..i + 1][..i] == insts[..i];
    forall t | t in next
      ensures next[t] == TypeCount(insts[..i + 1], t) > 0
    {
      if t != ty {
        assert t in counts.entries;
      } else if ty !in counts.entries {
        forall k | 0 <= k < i ensures insts[..i][k].instanceType != ty {
          assert insts[k].instanceType in counts.entries;
        }
        TypeCountAbsent(insts[..i], ty);
      }
    }
  }

  /** The instance types of a listing, in listing order. */
  function Types(insts: seq<Instance>): (ts: seq<string>)
    ensures |ts| == |insts|
  {
    if |insts| == 0 then [] else Types(insts[..|insts| - 1]) + [insts[|insts| - 1].instanceType]
  }

  /** The insert-or-increment of one more instance's type keeps the keys in the order their types
      were first met. */
  lemma KeysStep(counts: Dict<string, nat>, insts: seq<Instance>, i: nat, v: nat)
    requires i < |insts| && counts.Valid()
    requires counts.keys == FirstSeen(Types(insts[..i]))
    ensures counts.Put(insts[i].instanceType, v).keys == FirstSeen(Types(insts[..i + 1]))
  {
    assert insts[..i + 1][..i] == insts[..i];
    assert Types(insts[..i + 1]) == Types(insts[..i]) + [insts[i].instanceType];
    assert Types(insts[..i + 1])[..i] == Types(insts[..i]);
  }

  function CountLine(counts: Dict<string, nat>, k: string): string
    requires k in counts.entries
  {
    k + ":" + NatToString(counts.entries[k])
  }

  /** The state of the counting loop after the first `n` instances: the keys are their types in
      the order first met, each count is the number of instances of its type, and the counts add
      up to `n`. */
  ghost predicate Counted(counts: Dict<string, nat>, insts: seq<Instance>, n: nat)
    requires n <= |insts|
  {
    && counts.Valid()
    && counts.keys == FirstSeen(Types(insts[..n]))
    && Tallied(counts, insts, n)
    && Sum(counts, AsInt) == n
  }

  /** One pass of the counting loop: the insert-or-increment of the next instance's type. */
  lemma CountStep(counts: Dict<string, nat>, insts: seq<Instance>, i: nat)
    requires i < |insts| && Counted(counts, insts, i)
    ensures var ty := insts[i].instanceType;
            Counted(counts.Put(ty, if ty in counts.entries then counts.entries[ty] + 1 else 1), insts, i + 1)
  {
    var ty := insts[i].instanceType;
    var v: nat := if ty in counts.entries then counts.entries[ty] + 1 else 1;
    TallyStep(counts, insts, i);
    KeysStep(counts, insts, i, v);
    PutSum(counts, AsInt, ty, v);
  }

  /** `countInstanceByType`: the per-type counts, kept in a dictionary whose keys appear in the
      order their type was first met, and the `type:count` lines printed from it. Each type of the
      listing is a key, each key's count is its number of instances, and the counts add up to the
      number of instances. */
  method CountInstanceByType(insts: seq<Instance>) returns (counts: Dict<string, nat>, printed: seq<string>)
    ensures counts.Valid()
    ensures counts.keys == FirstSeen(Types(insts))
    ensures forall k :: 0 <= k < |insts| ==> insts[k].instanceType in counts.entries
    ensures forall t :: t in counts.entries ==> counts.entries[t] == TypeCount(insts, t) > 0
    ensures Sum(counts, AsInt) == |insts|
    ensures |printed| == |counts.keys|
    ensures forall i :: 0 <= i < |printed| ==> printed[i] == CountLine(counts, counts.keys[i])
  {
    counts := Empty();
    var i := 0;
    assert insts[..0] == [];
    while i < |insts|
      invariant 0 <= i <= |insts|
      invariant Counted(counts, insts, i)
    {
      var ty := insts[i].instanceType;
      CountStep(counts, insts, i);
      // try: instancesByType[ty] += 1 except: instancesByType[ty] = 1
      if ty in counts.entries {
        counts := counts.Put(ty, counts.entries[ty] + 1);
      } else {
        counts := counts.Put(ty, 1);
      }
      i := i + 1;
    }
    assert insts[..|insts|] == insts;
    printed := PrintCounts(counts);
  }

  /** The printing loop: one `type:count` line per key, in key order. */
  method PrintCounts(counts: Dict<string, nat>) returns (printed: seq<string>)
    requires counts.Valid()
    ensures |printed| == |counts.keys|
    ensures forall i :: 0 <= i < |printed| ==> printed[i] == CountLine(counts, counts.keys[i])
  {
    printed := [];
    var j := 0;
    while j < |counts.keys|
      invariant 0 <= j <= |counts.keys|
      invariant |printed| == j
      invariant forall k :: 0 <= k < j ==> printed[k] == CountLine(counts, counts.keys[k])
    {
      var k := counts.keys[j];
      printed := printed + [k + ":" + NatToString(counts.entries[k])];
      j := j + 1;
    }
  }
}
