/** Domain-scope resolution: the list of domains the popup offers for the
    active tab's hostname, and the one it selects by default. */
module Domains {
  import opened Store
  import opened Text

  /** How much of the site an option covers: the exact host, a parent domain
      with its subdomains, or the two-label root with all subdomains. */
  datatype Level = Current | Parent | Root

  /** One entry of the domain selector. The label shown is always the value;
      the description is a fixed text per level. */
  datatype DomainOption = DomainOption(level: Level, value: string)

  function Labels(hostname: string): (parts: seq<string>)
  {
    Split(hostname, '.')
  }

  /** The wildcard value for the labels from index `i` on. */
  function SuffixValue(parts: seq<string>, i: nat): (v: string)
    requires i < |parts|
  {
    "." + Join(parts[i..], '.')
  }

  predicate HasValue(options: seq<DomainOption>, v: string)
  {
    exists k :: 0 <= k < |options| && options[k].value == v
  }

  predicate HasLevel(options: seq<DomainOption>, level: Level)
  {
    exists k :: 0 <= k < |options| && options[k].level == level
  }

  /** The parent options for the labels from index `i` on, up to (not
      including) the last label: one per suffix, most specific first. */
  function ParentOptions(parts: seq<string>, i: nat): (r: seq<DomainOption>)
    ensures |r| == if i + 1 < |parts| then |parts| - 1 - i else 0
    ensures forall k :: 0 <= k < |r| ==> r[k] == DomainOption(Parent, SuffixValue(parts, i + k))
    decreases |parts| - i
  {
    if i + 1 < |parts| then [DomainOption(Parent, SuffixValue(parts, i))] + ParentOptions(parts, i + 1)
    else []
  }

  /** The options for a hostname: the hostname itself, one parent per label
      from the second to the last but one, and the root (a dot and the last
      two labels) unless an option already carries its value. */
  function DomainOptions(hostname: string): (options: seq<DomainOption>)
  {
    var parts := Labels(hostname);
    var n := |parts|;
    var listed := [DomainOption(Current, hostname)] + ParentOptions(parts, 1);
    if n >= 2 && !HasValue(listed, SuffixValue(parts, n - 2)) then listed + [DomainOption(Root, SuffixValue(parts, n - 2))]
    else listed
  }

  /** The popup's `generateDomainOptions`: pushes the current option, the
      parents in a loop, then the root when its value is not yet listed. */
  method GenerateDomainOptions(hostname: string) returns (options: seq<DomainOption>)
    ensures options == DomainOptions(hostname)
  {
    var parts := Split(hostname, '.');
    ghost var parents := ParentOptions(parts, 1);
    options := [DomainOption(Current, hostname)];
    if |parts| > 2 {
      for i := 1 to |parts| - 1
        invariant options == [DomainOption(Current, hostname)] + parents[..i - 1]
      {
        var parentDomain := "." + Join(parts[i..], '.');
        assert parents[..i] == parents[..i - 1] + [DomainOption(Parent, parentDomain)];
        options := options + [DomainOption(Parent, parentDomain)];
      }
      assert parents[..|parts| - 2] == parents;
    }
    assert options == [DomainOption(Current, hostname)] + parents;
    if |parts| >= 2 {
      var rootDomain := "." + Join(parts[|parts| - 2..], '.');
      if !HasValue(options, rootDomain) {
        options := options + [DomainOption(Root, rootDomain)];
      }
    }
  }

  /** The value of the first parent option, if any (`find` on the level). */
  function FirstParent(options: seq<DomainOption>): (r: Option<string>)
    ensures r.None? <==> !HasLevel(options, Parent)
    ensures r.Some? ==> exists k :: 0 <= k < |options| && options[k] == DomainOption(Parent, r.value)
                                    && forall j :: 0 <= j < k ==> options[j].level != Parent
  {
    if options == [] then None
    else if options[0].level == Parent then
      assert options[0] == DomainOption(Parent, options[0].value);
      Some(options[0].value)
    else
      var r := FirstParent(options[1..]);
      assert forall k :: 1 <= k < |options| ==> options[k] == options[1..][k - 1];
      r
  }

  /** The selection `getCurrentDomain` makes: the first parent option's value,
      otherwise the bare hostname. */
  function DefaultSelection(hostname: string, options: seq<DomainOption>): (selected: string)
  {
    match FirstParent(options)
    case Some(v) => v
    case None => hostname
  }

  /** The first option is always the bare hostname at level current. */
  lemma OptionsStartWithCurrent(hostname: string)
    ensures |DomainOptions(hostname)| >= 1
    ensures DomainOptions(hostname)[0] == DomainOption(Current, hostname)
  {
  }

  /** A one-label hostname (such as `localhost`) yields only itself. */
  lemma OneLabel(hostname: string)
    requires |Labels(hostname)| == 1
    ensures DomainOptions(hostname) == [DomainOption(Current, hostname)]
  {
  }

  /** A two-label hostname yields itself and the root `"." + hostname`. */
  lemma {:induction false} TwoLabels(hostname: string)
    requires |Labels(hostname)| == 2
    ensures DomainOptions(hostname) == [DomainOption(Current, hostname), DomainOption(Root, "." + hostname)]
  {
    var parts := Labels(hostname);
    JoinSplit(hostname, '.');
    assert parts[0..] == parts;
    var listed := [DomainOption(Current, hostname)];
    assert SuffixValue(parts, 0) == "." + hostname;
    assert !HasValue(listed, "." + hostname) by {
      assert |"." + hostname| != |hostname|;
    }
  }

  /** With N >= 3 labels the options are the hostname and then N - 2 parents,
      the k-th being "." followed by labels k.. joined; the root's value equals
      the last parent's, so no root entry is added. */
  lemma {:induction false} ManyLabels(hostname: string)
    requires |Labels(hostname)| >= 3
    ensures var parts := Labels(hostname);
            var r := DomainOptions(hostname);
            && |r| == |parts| - 1
            && r[0] == DomainOption(Current, hostname)
            && (forall k :: 1 <= k < |r| ==> r[k] == DomainOption(Parent, SuffixValue(parts, k)))
            && !HasLevel(r, Root)
  {
    var parts := Labels(hostname);
    var n := |parts|;
    var parents := ParentOptions(parts, 1);
    var listed := [DomainOption(Current, hostname)] + parents;
    assert HasValue(listed, SuffixValue(parts, n - 2)) by {
      assert listed[n - 2] == parents[n - 3];
    }
    assert DomainOptions(hostname) == listed;
    forall k | 1 <= k < |listed|
      ensures listed[k] == DomainOption(Parent, SuffixValue(parts, k))
    {
      assert listed[k] == parents[k - 1];
    }
    assert !HasLevel(listed, Root) by {
      forall k | 0 <= k < |listed| ensures listed[k].level != Root {
        if k > 0 { assert listed[k] == parents[k - 1]; }
      }
    }
  }

  /** A root entry appears exactly when the hostname has two labels. */
  lemma RootIffTwoLabels(hostname: string)
    ensures HasLevel(DomainOptions(hostname), Root) <==> |Labels(hostname)| == 2
  {
    var n := |Labels(hostname)|;
    if n == 1 {
      OneLabel(hostname);
    } else if n == 2 {
      TwoLabels(hostname);
      assert DomainOptions(hostname)[1].level == Root;
    } else {
      ManyLabels(hostname);
    }
  }

  /** The labels from index `k` on, joined behind a ".", are the suffix of
      the hostname that starts at the dot before label `k`. */
  lemma SuffixInHost(hostname: string, k: nat)
    requires 0 < k < |Labels(hostname)|
    ensures var j := |Join(Labels(hostname)[..k], '.')|;
            j < |hostname| && hostname[j] == '.' && hostname[j..] == SuffixValue(Labels(hostname), k)
  {
    var parts := Labels(hostname);
    JoinSplit(hostname, '.');
    JoinAt(parts, '.', k);
  }

  /** The options at indices 1 to N - 2 are the parents, each a suffix of the
      hostname that starts at one of its dots, so a real parent domain of the
      host; a later parent is a strict suffix of an earlier one. */
  lemma ParentsAreSuffixes(hostname: string, k: nat)
    requires 1 <= k < |Labels(hostname)| - 1
    ensures var r := DomainOptions(hostname);
            && k < |r| && r[k].level == Parent
            && exists j :: 0 <= j < |hostname| && hostname[j] == '.' && r[k].value == hostname[j..]
  {
    ParentAt(hostname, k);
    SuffixInHost(hostname, k);
  }

  /** Parents come most specific first: each later parent value is a strictly
      shorter suffix of every earlier one. */
  lemma ParentsNarrowing(hostname: string, k: nat, k': nat)
    requires 1 <= k < k' < |Labels(hostname)| - 1
    ensures var r := DomainOptions(hostname);
            k' < |r| && ProperSuffix(r[k'].value, r[k].value)
  {
    ParentAt(hostname, k);
    ParentAt(hostname, k');
    SuffixNarrowing(Labels(hostname), k, k');
  }

  /** The option at index k, for 1 <= k <= N - 2, is the parent for the
      labels from k on. */
  lemma ParentAt(hostname: string, k: nat)
    requires 1 <= k < |Labels(hostname)| - 1
    ensures var r := DomainOptions(hostname);
            k < |r| && r[k] == DomainOption(Parent, SuffixValue(Labels(hostname), k))
  {
    ManyLabels(hostname);
  }

  /** The wildcard value of a later label index is a strict suffix of that of
      an earlier one. */
  lemma SuffixNarrowing(parts: seq<string>, k: nat, k': nat)
    requires k < k' < |parts|
    ensures ProperSuffix(SuffixValue(parts, k'), SuffixValue(parts, k))
  {
    var tail := parts[k..];
    JoinAt(tail, '.', k' - k);
    assert tail[k' - k..] == parts[k'..];
  }

  /** Parent and root values carry the wildcard prefix ".". */
  lemma WildcardPrefix(hostname: string, k: nat)
    requires var r := DomainOptions(hostname); k < |r| && r[k].level != Current
    ensures HasPrefix(DomainOptions(hostname)[k].value, ".")
  {
    var n := |Labels(hostname)|;
    if n == 1 {
      OneLabel(hostname);
    } else if n == 2 {
      WildcardPrefixTwo(hostname, k);
    } else {
      WildcardPrefixMany(hostname, k);
    }
  }

  lemma WildcardPrefixTwo(hostname: string, k: nat)
    requires |Labels(hostname)| == 2
    requires var r := DomainOptions(hostname); k < |r| && r[k].level != Current
    ensures HasPrefix(DomainOptions(hostname)[k].value, ".")
  {
    TwoLabels(hostname);
  }

  lemma WildcardPrefixMany(hostname: string, k: nat)
    requires |Labels(hostname)| > 2
    requires var r := DomainOptions(hostname); k < |r| && r[k].level != Current
    ensures HasPrefix(DomainOptions(hostname)[k].value, ".")
  {
    ManyLabels(hostname);
  }

  /** The default selection drops the hostname's first label and keeps the
      dot when there are three or more labels, and is the hostname otherwise. */
  lemma DefaultSelectionShape(hostname: string)
    ensures var parts := Labels(hostname);
            var sel := DefaultSelection(hostname, DomainOptions(hostname));
            && (|parts| >= 3 ==> |parts[0]| < |hostname| && hostname[|parts[0]|] == '.' && sel == hostname[|parts[0]|..])
            && (|parts| < 3 ==> sel == hostname)
  {
    if |Labels(hostname)| >= 3 {
      DefaultSelectionMany(hostname);
    } else {
      DefaultSelectionFew(hostname);
    }
  }

  lemma DefaultSelectionMany(hostname: string)
    requires |Labels(hostname)| >= 3
    ensures var parts := Labels(hostname);
            && |parts[0]| < |hostname| && hostname[|parts[0]|] == '.'
            && DefaultSelection(hostname, DomainOptions(hostname)) == hostname[|parts[0]|..]
  {
    var parts := Labels(hostname);
    var r := DomainOptions(hostname);
    ManyLabels(hostname);
    var p := r[1];
    assert p == DomainOption(Parent, SuffixValue(parts, 1));
    assert FirstParent(r) == FirstParent(r[1..]);
    assert r[1..][0] == p;
    SuffixInHost(hostname, 1);
    assert parts[..1] == [parts[0]];
  }

  lemma DefaultSelectionFew(hostname: string)
    requires |Labels(hostname)| < 3
    ensures DefaultSelection(hostname, DomainOptions(hostname)) == hostname
  {
    var r := DomainOptions(hostname);
    if |Labels(hostname)| == 2 {
      TwoLabels(hostname);
      assert r[0].level != Parent && r[1].level != Parent;
    } else {
      OneLabel(hostname);
    }
    assert !HasLevel(r, Parent);
  }
}
