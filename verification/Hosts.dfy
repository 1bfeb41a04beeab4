/** The allowlists of app/schemas/payloads.py: host matching and the payload policy. */
module Hosts {
  import opened Jobs
  import opened Order

  const DOT := '.'

  /** Python's rstrip("."). */
  function RStrip(s: string): (r: string)
    ensures r <= s && (r == [] || r[|r| - 1] != DOT)
    ensures forall i | |r| <= i < |s| :: s[i] == DOT
  {
    if s != [] && s[|s| - 1] == DOT then RStrip(s[..|s| - 1]) else s
  }

  /** Python's strip("."). */
  function Strip(s: string): (r: string)
    ensures r == [] || (r[0] != DOT && r[|r| - 1] != DOT)
  {
    if s != [] && s[0] == DOT then Strip(s[1..]) else RStrip(s)
  }

  ghost predicate AllDots(s: string) {
    forall c | c in s :: c == '.'
  }

  /** `t` without dots at its ends, with dots put there. */
  ghost predicate Trims(s: string, t: string) {
    && (t == [] || (t[0] != '.' && t[|t| - 1] != '.'))
    && exists a, b :: AllDots(a) && AllDots(b) && s == a + t + b
  }

  lemma TrimsMore(s: string, t: string)
    requires Trims(s, t)
    ensures Trims([DOT] + s, t)
  {
    var a, b :| AllDots(a) && AllDots(b) && s == a + t + b;
    assert [DOT] + s == ([DOT] + a) + t + b && AllDots([DOT] + a);
  }

  /** Nothing but dots is lost, at the ends only. */
  lemma {:induction false} StripTrims(s: string)
    ensures Trims(s, Strip(s))
  {
    if s != [] && s[0] == DOT {
      StripTrims(s[1..]);
      TrimsMore(s[1..], Strip(s[1..]));
      assert s == [DOT] + s[1..];
    } else {
      var b := s[|RStrip(s)|..];
      assert AllDots([]) && AllDots(b) && s == [] + RStrip(s) + b;
    }
  }

  predicate EndsWith(s: string, t: string) {
    |t| <= |s| && s[|s| - |t|..] == t
  }

  predicate Matches(host: string, entry: string) {
    host == entry || EndsWith(host, [DOT] + entry)
  }

  /** `_host_allowed`; `lower` is the case folding of the runtime. */
  predicate HostAllowed(lower: string -> string, host: string, allowed: seq<string>)
  {
    allowed != []
    && (Matches(RStrip(lower(host)), Strip(lower(allowed[0]))) || HostAllowed(lower, host, allowed[1..]))
  }

  // ----- labels -----

  /** Python's split("."). */
  function Labels(s: string): (ls: seq<string>)
    ensures ls != []
  {
    if s == [] then [""]
    else if s[0] == DOT then [""] + Labels(s[1..])
    else
      var ls := Labels(s[1..]);
      [[s[0]] + ls[0]] + ls[1..]
  }

  /** Python's ".".join. */
  function Join(ls: seq<string>): string
    requires ls != []
  {
    if |ls| == 1 then ls[0] else ls[0] + "." + Join(ls[1..])
  }

  predicate LabelSuffix(ls: seq<string>, suffix: seq<string>) {
    |suffix| <= |ls| && ls[|ls| - |suffix|..] == suffix
  }

  lemma {:induction false} LabelsOfConcat(a: string, b: string)
    ensures Labels(a + [DOT] + b) == Labels(a) + Labels(b)
  {
    if a == [] {
      assert ([DOT] + b)[1..] == b;
      assert [] + [DOT] + b == [DOT] + b;
    } else {
      assert (a + [DOT] + b)[1..] == a[1..] + [DOT] + b;
      LabelsOfConcat(a[1..], b);
    }
  }

  /** Splitting loses nothing. */
  lemma {:induction false} JoinOfLabels(s: string)
    ensures Join(Labels(s)) == s && forall l | l in Labels(s) :: '.' !in l
  {
    if s != [] {
      var ls := Labels(s[1..]);
      JoinOfLabels(s[1..]);
      if s[0] == DOT {
        assert ([""] + ls)[1..] == ls;
      } else {
        assert ([[s[0]] + ls[0]] + ls[1..])[1..] == ls[1..];
      }
    }
  }

  lemma {:induction false} JoinOfConcat(p: seq<string>, q: seq<string>)
    requires p != [] && q != []
    ensures Join(p + q) == Join(p) + [DOT] + Join(q)
  {
    assert (p + q)[1..] == p[1..] + q;
    if |p| == 1 {
      assert p[1..] + q == q;
    } else {
      JoinOfConcat(p[1..], q);
    }
  }

  lemma SuffixSplits<T>(s: seq<T>, t: seq<T>) returns (a: seq<T>)
    requires |t| <= |s| && s[|s| - |t|..] == t
    ensures s == a + t
  {
    a := s[..|s| - |t|];
  }

  lemma SuffixOf<T>(a: seq<T>, t: seq<T>)
    ensures (a + t)[|a + t| - |t|..] == t
  {
  }

  lemma MatchesGivesSuffix(host: string, entry: string)
    requires Matches(host, entry)
    ensures LabelSuffix(Labels(host), Labels(entry))
  {
    if host != entry {
      var a := SuffixSplits(host, [DOT] + entry);
      Assoc(a, [DOT], entry);
      LabelsOfConcat(a, entry);
      SuffixOf(Labels(a), Labels(entry));
    }
  }

  lemma SuffixGivesMatch(host: string, entry: string)
    requires LabelSuffix(Labels(host), Labels(entry))
    ensures Matches(host, entry)
  {
    var p := SuffixSplits(Labels(host), Labels(entry));
    JoinOfLabels(host);
    JoinOfLabels(entry);
    if p == [] {
      assert Labels(host) == Labels(entry);
    } else {
      JoinOfConcat(p, Labels(entry));
      Assoc(Join(p), [DOT], entry);
      SuffixOf(Join(p), [DOT] + entry);
    }
  }

  /** The string test is label matching: no entry ever matches in the middle of a label. */
  lemma MatchesIsLabelSuffix(host: string, entry: string)
    ensures Matches(host, entry) <==> LabelSuffix(Labels(host), Labels(entry))
  {
    if Matches(host, entry) { MatchesGivesSuffix(host, entry); }
    if LabelSuffix(Labels(host), Labels(entry)) { SuffixGivesMatch(host, entry); }
  }

  /** The labels of the normalised entry are a suffix of those of the normalised host. */
  predicate Covers(lower: string -> string, entry: string, host: string) {
    LabelSuffix(Labels(RStrip(lower(host))), Labels(Strip(lower(entry))))
  }

  lemma {:induction false} AllowedIf(lower: string -> string, host: string, allowed: seq<string>, i: nat)
    requires i < |allowed| && Covers(lower, allowed[i], host)
    ensures HostAllowed(lower, host, allowed)
  {
    if i == 0 {
      MatchesIsLabelSuffix(RStrip(lower(host)), Strip(lower(allowed[0])));
    } else {
      AllowedIf(lower, host, allowed[1..], i - 1);
    }
  }

  lemma {:induction false} AllowedBy(lower: string -> string, host: string, allowed: seq<string>) returns (i: nat)
    requires HostAllowed(lower, host, allowed)
    ensures i < |allowed| && Covers(lower, allowed[i], host)
  {
    if Matches(RStrip(lower(host)), Strip(lower(allowed[0]))) {
      MatchesIsLabelSuffix(RStrip(lower(host)), Strip(lower(allowed[0])));
      i := 0;
    } else {
      i := AllowedBy(lower, host, allowed[1..]);
      i := i + 1;
    }
  }

  /**
   * A host is allowed exactly when the labels of some normalised entry are a suffix of its own,
   * for all strings, empty ones and empty labels included.
   */
  lemma HostAllowedExactly(lower: string -> string, host: string, allowed: seq<string>)
    ensures HostAllowed(lower, host, allowed) <==> exists i :: 0 <= i < |allowed| && Covers(lower, allowed[i], host)
  {
    if HostAllowed(lower, host, allowed) {
      var i := AllowedBy(lower, host, allowed);
      assert Covers(lower, allowed[i], host);
    }
    if i :| 0 <= i < |allowed| && Covers(lower, allowed[i], host) { AllowedIf(lower, host, allowed, i); }
  }

  // ----- the policy -----

  const AT := '@'

  /** What follows the last "@" (rsplit with one split), if there is one. */
  function Domain(s: string): (r: Option<string>)
    ensures r.None? <==> AT !in s
    ensures r.Some? ==> AT !in r.value && EndsWith(s, [AT] + r.value)
  {
    if s == [] then None
    else
      var rest := Domain(s[1..]);
      if rest.Some? then rest else if s[0] == AT then assert s == [AT] + s[1..]; Some(s[1..]) else None
  }

  datatype Item = ToWebhook(host: Option<string>) | ToEmail(address: string) | Reporting

  datatype Payload = Single(item: Item) | Several(items: seq<Item>)

  datatype Verdict = Accepted | BadHost(host: string) | BadDomain(domain: string) | NoDomain

  datatype Policy = Policy(hosts: seq<string>, domains: seq<string>)

  predicate DomainListed(lower: string -> string, domain: string, domains: seq<string>) {
    domains != [] && (domain == lower(domains[0]) || DomainListed(lower, domain, domains[1..]))
  }

  function CheckItem(lower: string -> string, policy: Policy, item: Item): Verdict {
    match item
    case ToWebhook(h) =>
      var host := if h.Some? then h.value else "";
      if HostAllowed(lower, host, policy.hosts) then Accepted else BadHost(host)
    case ToEmail(address) =>
      (match Domain(address)
       case None => NoDomain
       case Some(d) => if DomainListed(lower, lower(d), policy.domains) then Accepted else BadDomain(lower(d)))
    case Reporting => Accepted
  }

  function CheckItems(lower: string -> string, policy: Policy, items: seq<Item>): Verdict {
    if items == [] then Accepted
    else
      var v := CheckItem(lower, policy, items[0]);
      if v.Accepted? then CheckItems(lower, policy, items[1..]) else v
  }

  /** `_check_policy`: a batch is checked item by item and rejected at the first violation. */
  function CheckPolicy(lower: string -> string, policy: Policy, payload: Payload): Verdict {
    match payload
    case Single(item) => CheckItem(lower, policy, item)
    case Several(items) => CheckItems(lower, policy, items)
  }

  /** What the allowlists mean for one item. */
  ghost predicate Complies(lower: string -> string, policy: Policy, item: Item) {
    match item
    case ToWebhook(h) =>
      exists i :: 0 <= i < |policy.hosts| && Covers(lower, policy.hosts[i], if h.Some? then h.value else "")
    case ToEmail(address) =>
      exists d, i :: 0 <= i < |policy.domains|
        && '@' !in d && EndsWith(address, "@" + d) && lower(d) == lower(policy.domains[i])
    case Reporting => true
  }

  lemma {:induction false} DomainListedExactly(lower: string -> string, domain: string, domains: seq<string>)
    ensures DomainListed(lower, domain, domains) <==> exists i :: 0 <= i < |domains| && domain == lower(domains[i])
  {
    if domains != [] {
      DomainListedExactly(lower, domain, domains[1..]);
      if i :| 0 <= i < |domains[1..]| && domain == lower(domains[1..][i]) { assert domains[1..][i] == domains[i + 1]; }
      if i :| 1 <= i < |domains| && domain == lower(domains[i]) { assert domains[1..][i - 1] == domains[i]; }
    }
  }

  /** The part after the last "@" is the only "@"-free part that follows an "@" to the end. */
  lemma DomainUnique(s: string, d: string)
    requires AT !in d && EndsWith(s, [AT] + d)
    ensures Domain(s) == Some(d)
  {
    var a := SuffixSplits(s, [AT] + d);
    assert s[|a|] == AT;
    var r := Domain(s).value;
    var b := SuffixSplits(s, [AT] + r);
    LastAt(a, d, b, r);
  }

  lemma LastAt(a: string, d: string, b: string, r: string)
    requires AT !in d && AT !in r && a + ([AT] + d) == b + ([AT] + r)
    ensures d == r
  {
    var s := a + ([AT] + d);
    assert s[|a|] == AT && s[|b|] == AT;
    assert forall i | |a| < i < |s| :: s[i] == d[i - |a| - 1];
    assert forall i | |b| < i < |s| :: s[i] == r[i - |b| - 1];
    assert |a| == |b|;
    assert d == s[|a| + 1..] == r;
  }

  lemma ItemAcceptedExactly(lower: string -> string, policy: Policy, item: Item)
    ensures CheckItem(lower, policy, item) == Accepted <==> Complies(lower, policy, item)
  {
    match item
    case ToWebhook(h) => HostAllowedExactly(lower, if h.Some? then h.value else "", policy.hosts);
    case ToEmail(address) =>
      if d, i :| 0 <= i < |policy.domains| && AT !in d && EndsWith(address, [AT] + d)
                 && lower(d) == lower(policy.domains[i]) {
        DomainUnique(address, d);
        DomainListedExactly(lower, lower(d), policy.domains);
      }
      if Domain(address).Some? { DomainListedExactly(lower, lower(Domain(address).value), policy.domains); }
    case Reporting =>
  }

  /** The refusal that the item has earned: it names the item's own host, or the lower-cased domain of its address. */
  ghost predicate RefusedAs(lower: string -> string, item: Item, v: Verdict) {
    match item
    case ToWebhook(h) => v == BadHost(if h.Some? then h.value else "")
    case ToEmail(address) =>
      if '@' !in address then v == NoDomain
      else exists d :: '@' !in d && EndsWith(address, "@" + d) && v == BadDomain(lower(d))
    case Reporting => false
  }

  /** A payload with one item passes exactly when the item complies, and is refused for what is wrong with it. */
  lemma SingleCheckedExactly(lower: string -> string, policy: Policy, item: Item)
    ensures var v := CheckPolicy(lower, policy, Single(item));
            && (v == Accepted <==> Complies(lower, policy, item))
            && (v != Accepted ==> RefusedAs(lower, item, v))
  {
    ItemAcceptedExactly(lower, policy, item);
  }

  /** Item `i` is the first that does not comply, and `v` is its refusal. */
  ghost predicate Offends(lower: string -> string, policy: Policy, items: seq<Item>, i: nat, v: Verdict) {
    && i < |items| && !Complies(lower, policy, items[i]) && RefusedAs(lower, items[i], v)
    && forall k | 0 <= k < i :: Complies(lower, policy, items[k])
  }

  lemma OffendsLater(lower: string -> string, policy: Policy, items: seq<Item>, i: nat, v: Verdict)
    requires items != [] && Complies(lower, policy, items[0]) && Offends(lower, policy, items[1..], i, v)
    ensures Offends(lower, policy, items, i + 1, v)
  {
    assert items[1..][i] == items[i + 1];
    forall k | 0 <= k < i + 1
      ensures Complies(lower, policy, items[k])
    {
      if k > 0 { assert items[1..][k - 1] == items[k]; }
    }
  }

  /** A batch passes exactly when every item complies; otherwise the first offender decides the verdict. */
  lemma {:induction false} BatchCheckedInOrder(lower: string -> string, policy: Policy, items: seq<Item>)
    ensures var v := CheckPolicy(lower, policy, Several(items));
            && (v == Accepted <==> forall i | 0 <= i < |items| :: Complies(lower, policy, items[i]))
            && (v != Accepted ==> exists i: nat :: Offends(lower, policy, items, i, v))
  {
    if items != [] {
      var tail := items[1..];
      SingleCheckedExactly(lower, policy, items[0]);
      BatchCheckedInOrder(lower, policy, tail);
      assert CheckPolicy(lower, policy, Several(tail)) == CheckItems(lower, policy, tail);
      assert forall i | 0 <= i < |tail| :: tail[i] == items[i + 1];
      assert forall i | 1 <= i < |items| :: items[i] == tail[i - 1];
      var v := CheckItems(lower, policy, items);
      if v != Accepted {
        if CheckItem(lower, policy, items[0]) != Accepted {
          assert Offends(lower, policy, items, 0, v);
        } else {
          var i: nat :| Offends(lower, policy, tail, i, v);
          OffendsLater(lower, policy, items, i, v);
        }
      }
    }
  }
}
