/** Object names, work-queue keys and the batch threshold.

    Pods, ChangePods and ChangeWorkloads share one work queue.  A key for a Pod or a ChangePod
    is the object's name behind a type tag and a separator; a key for a ChangeWorkload is its
    plain name.  Object names may themselves contain the separator.
 */
module Names {

  const META_MARK := "--x--"
  const RESOURCE_TYPE_POD := "[**pod**]"
  const RESOURCE_TYPE_CHANGE_POD := "[**changepod**]"

  datatype NamespacedName = NamespacedName(ns: string, name: string)

  // ---------------------------------------------------------------- splitting and joining

  predicate OccursAt(s: string, sep: string, i: nat) {
    i + |sep| <= |s| && s[i..i + |sep|] == sep
  }

  lemma OccursInTail(s: string, sep: string)
    requires s != ""
    ensures forall j: nat | j > 0 :: OccursAt(s, sep, j) ==> OccursAt(s[1..], sep, j - 1)
    ensures forall j: nat :: OccursAt(s[1..], sep, j) ==> OccursAt(s, sep, j + 1)
  {
    forall j: nat | j > 0 && OccursAt(s, sep, j) ensures OccursAt(s[1..], sep, j - 1) {
      assert s[1..][j - 1..j - 1 + |sep|] == s[j..j + |sep|];
    }
    forall j: nat | OccursAt(s[1..], sep, j) ensures OccursAt(s, sep, j + 1) {
      assert s[1..][j..j + |sep|] == s[j + 1..j + 1 + |sep|];
    }
  }

  /** Position of the leftmost occurrence of `sep`, or -1. */
  function Index(s: string, sep: string): (i: int)
    ensures -1 <= i
    ensures i >= 0 ==> OccursAt(s, sep, i)
    ensures forall j: nat :: j < i || i == -1 ==> !OccursAt(s, sep, j)
  {
    if sep <= s then
      assert OccursAt(s, sep, 0);
      0
    else if s == "" then -1
    else
      var rest := Index(s[1..], sep);
      OccursInTail(s, sep);
      if rest < 0 then -1 else rest + 1
  }

  function Split(s: string, sep: string): (parts: seq<string>)
    requires sep != ""
    ensures parts != []
    decreases |s|
  {
    var i := Index(s, sep);
    if i < 0 then [s] else [s[..i]] + Split(s[i + |sep|..], sep)
  }

  function Join(parts: seq<string>, sep: string): string {
    if parts == [] then ""
    else if |parts| == 1 then parts[0]
    else parts[0] + sep + Join(parts[1..], sep)
  }

  /** A string around an occurrence of the separator. */
  lemma CutAt(s: string, sep: string, i: nat)
    requires OccursAt(s, sep, i)
    ensures s == s[..i] + sep + s[i + |sep|..]
  {
    assert s == s[..i] + s[i..i + |sep|] + s[i + |sep|..];
  }

  lemma {:induction false} JoinInvertsSplit(s: string, sep: string)
    requires sep != ""
    ensures Join(Split(s, sep), sep) == s
    decreases |s|
  {
    var i := Index(s, sep);
    if i >= 0 {
      var parts := Split(s[i + |sep|..], sep);
      JoinInvertsSplit(s[i + |sep|..], sep);
      assert ([s[..i]] + parts)[1..] == parts;
      CutAt(s, sep, i);
    }
  }

  lemma MarkStartsWithDash(s: string)
    ensures forall i: nat :: OccursAt(s, META_MARK, i) ==> i < |s| && s[i] == '-'
  {
    forall i: nat | OccursAt(s, META_MARK, i) ensures i < |s| && s[i] == '-' {
      assert s[i..i + |META_MARK|][0] == s[i];
    }
  }

  /** A tag without the separator's first character is split off exactly. */
  lemma SplitTagged(tag: string, name: string)
    requires '-' !in tag
    ensures Split(tag + META_MARK + name, META_MARK) == [tag] + Split(name, META_MARK)
  {
    var key := tag + META_MARK + name;
    assert OccursAt(key, META_MARK, |tag|);
    MarkStartsWithDash(key);
    assert forall j: nat | j < |tag| :: key[j] == tag[j];
    var i := Index(key, META_MARK);
    assert key[..i] == tag && key[i + |META_MARK|..] == name;
  }

  // ---------------------------------------------------------------- work-queue keys

  function PodKey(pod: NamespacedName): NamespacedName {
    pod.(name := RESOURCE_TYPE_POD + META_MARK + pod.name)
  }

  function ChangePodKey(changePod: NamespacedName): NamespacedName {
    changePod.(name := RESOURCE_TYPE_CHANGE_POD + META_MARK + changePod.name)
  }

  /** The request addressed by a tagged key: everything behind the first separator. */
  function RequestOfKey(key: NamespacedName): NamespacedName {
    key.(name := Join(Split(key.name, META_MARK)[1..], META_MARK))
  }

  function ResourceType(key: NamespacedName): string {
    Split(key.name, META_MARK)[0]
  }

  predicate IsPodResourceType(t: string) { t == RESOURCE_TYPE_POD }

  predicate IsChangePodResourceType(t: string) { t == RESOURCE_TYPE_CHANGE_POD }

  /** Decoding inverts encoding for every name, the separator included. */
  lemma KeyRoundTrip(n: NamespacedName)
    ensures RequestOfKey(PodKey(n)) == n && IsPodResourceType(ResourceType(PodKey(n)))
    ensures RequestOfKey(ChangePodKey(n)) == n && IsChangePodResourceType(ResourceType(ChangePodKey(n)))
  {
    SplitTagged(RESOURCE_TYPE_POD, n.name);
    SplitTagged(RESOURCE_TYPE_CHANGE_POD, n.name);
    JoinInvertsSplit(n.name, META_MARK);
    var parts := Split(n.name, META_MARK);
    assert ([RESOURCE_TYPE_POD] + parts)[1..] == parts;
    assert ([RESOURCE_TYPE_CHANGE_POD] + parts)[1..] == parts;
  }

  lemma PrefixAndRest(s: string, prefix: string)
    requires prefix <= s
    ensures s == prefix + s[|prefix|..]
  {
  }

  /** Exactly which keys are classified under a tag. */
  lemma KeyClass(key: NamespacedName, tag: string)
    requires '-' !in tag
    ensures ResourceType(key) == tag <==> key.name == tag || tag + META_MARK <= key.name
  {
    var i := Index(key.name, META_MARK);
    MarkStartsWithDash(key.name);
    if i >= 0 {
      assert key.name[..i] + key.name[i..i + |META_MARK|] == key.name[..i + |META_MARK|];
    }
    if tag + META_MARK <= key.name {
      PrefixAndRest(key.name, tag + META_MARK);
      SplitTagged(tag, key.name[|tag + META_MARK|..]);
    }
  }

  lemma TaggedStartsWith(s: string, tag: string)
    requires tag != ""
    ensures s == tag || tag + META_MARK <= s ==> tag[0] in s
  {
    if s == tag || tag + META_MARK <= s {
      assert s[0] == tag[0];
    }
  }

  /** The three key classes never overlap for object names without '['. */
  lemma KeyClassesDisjoint(a: NamespacedName, b: NamespacedName, workload: NamespacedName)
    requires '[' !in workload.name
    ensures PodKey(a) != ChangePodKey(b)
    ensures PodKey(a) != workload && ChangePodKey(b) != workload
    ensures !IsPodResourceType(ResourceType(workload)) && !IsChangePodResourceType(ResourceType(workload))
  {
    assert PodKey(a).name[0] == '[' && ChangePodKey(b).name[0] == '[';
    assert PodKey(a).name[3] == 'p' && ChangePodKey(b).name[3] == 'c';
    KeyClass(workload, RESOURCE_TYPE_POD);
    KeyClass(workload, RESOURCE_TYPE_CHANGE_POD);
    TaggedStartsWith(workload.name, RESOURCE_TYPE_POD);
    TaggedStartsWith(workload.name, RESOURCE_TYPE_CHANGE_POD);
  }

  // ---------------------------------------------------------------- combined names

  function CombineString(s1: string, s2: string): string {
    s1 + META_MARK + s2
  }

  lemma DashBeforeSuffix(s: string, suffix: string, k: nat)
    requires k < |s| && s[k] == '-' && '-' !in suffix
    requires |suffix| <= |s| && s[|s| - |suffix|..] == suffix
    ensures k < |s| - |suffix|
  {
    assert forall i | |s| - |suffix| <= i < |s| :: s[i] == suffix[i - (|s| - |suffix|)];
  }

  /** A combined name determines both parts when the last part has no '-'. */
  lemma CombineInjective(a: string, b: string, c: string, d: string)
    requires '-' !in b && '-' !in d
    requires CombineString(a, b) == CombineString(c, d)
    ensures a == c && b == d
  {
    var s := CombineString(a, b);
    DashBeforeSuffix(s, b, |s| - |d| - 1);
    DashBeforeSuffix(s, d, |s| - |b| - 1);
    assert b == s[|s| - |b|..] == d;
    assert a == s[..|a|] == c;
  }

  /** Without that restriction two different pairs can share a combined name. */
  lemma CombineCollision()
    ensures CombineString("web", "1--x--2") == CombineString("web--x--1", "2")
  {
    assert CombineString("web", "1--x--2") == "web--x--1--x--2" == CombineString("web--x--1", "2");
  }

  function Itoa(n: nat): (s: string)
    ensures s != ""
    ensures forall c :: c in s ==> '0' <= c <= '9'
  {
    var digit := ["0123456789"[n % 10]];
    if n < 10 then digit else Itoa(n / 10) + digit
  }

  lemma {:induction false} ItoaInjective(m: nat, n: nat)
    requires Itoa(m) == Itoa(n)
    ensures m == n
  {
    var a, b := Itoa(m), Itoa(n);
    assert a[|a| - 1] == "0123456789"[m % 10] && b[|b| - 1] == "0123456789"[n % 10];
    assert m % 10 == n % 10;
    assert m >= 10 ==> a[..|a| - 1] == Itoa(m / 10);
    assert n >= 10 ==> b[..|b| - 1] == Itoa(n / 10);
    if m >= 10 && n >= 10 {
      ItoaInjective(m / 10, n / 10);
    }
  }

  /** Name the ChangePod factory gives to the next ChangePod when `count` exist. */
  function ChangePodName(workload: string, count: nat): string {
    CombineString(workload, Itoa(count + 1))
  }

  /** The name determines the workload and the number, so Create on the name is a
      compare-and-swap on the count of existing ChangePods. */
  lemma ChangePodNameInjective(w: string, m: nat, w': string, n: nat)
    ensures ChangePodName(w, m) == ChangePodName(w', n) <==> w == w' && m == n
  {
    if ChangePodName(w, m) == ChangePodName(w', n) {
      CombineInjective(w, Itoa(m + 1), w', Itoa(n + 1));
      ItoaInjective(m + 1, n + 1);
    }
  }

  // ---------------------------------------------------------------- batch threshold

  const MAX_INT32 := 0x7FFF_FFFF

  /** Two's-complement wrap-around of a 64-bit product. */
  function Wrap64(x: int): int {
    (x + 0x8000_0000_0000_0000) % 0x1_0000_0000_0000_0000 - 0x8000_0000_0000_0000
  }

  /** Division truncating towards zero. */
  function Quotient(x: int, y: int): int
    requires y > 0
  {
    if x >= 0 then x / y else -(-x / y)
  }

  function Percent(value: int, percent: int): int {
    if percent == 0 || value == 0 then 1
    else if percent > 100 then value
    else
      var result := Quotient(Wrap64(value * percent), 100);
      if result < 0 then 1 else result
  }

  /** CountThreshold of a new ChangeWorkload. */
  function CountThreshold(isBatch: bool, batchPercent: int, replicas: int): int {
    if isBatch then Percent(replicas, batchPercent) else 1
  }

  /** Unless the product overflows 64 bits, the threshold is never negative and never above a positive
      replica count, and it is zero exactly when the percentage of the replicas truncates to zero. */
  lemma ThresholdRange(isBatch: bool, percent: int, replicas: int)
    requires 0 <= replicas <= MAX_INT32 && -0x8000_0000_0000_0000 <= replicas * percent
    ensures var t := CountThreshold(isBatch, percent, replicas);
            && 0 <= t && (replicas >= 1 ==> t <= replicas)
            && (t == 0 <==> isBatch && replicas > 0 && percent != 0 && percent <= 100
                            && -100 < replicas * percent < 100)
  {
    if isBatch && percent != 0 && replicas != 0 && percent <= 100 {
      var product := replicas * percent;
      ProductInRange(replicas, percent);
      assert Wrap64(product) == product;
      if percent > 0 {
        assert 0 <= product;
      } else {
        assert product <= 0;
      }
    }
  }

  /** The threshold of a batched rollout is the percentage of the replicas, rounded down; all replicas above
      100 percent, one for nothing to take a percentage of, and one for less than minus one. */
  lemma ThresholdExactly(percent: int, replicas: int)
    requires 0 <= replicas <= MAX_INT32 && -0x8000_0000_0000_0000 <= replicas * percent
    ensures CountThreshold(false, percent, replicas) == 1
    ensures var t := CountThreshold(true, percent, replicas);
            && (replicas == 0 || percent == 0 ==> t == 1)
            && (replicas > 0 && percent > 100 ==> t == replicas)
            && (replicas > 0 && 0 < percent <= 100 ==> 100 * t <= replicas * percent < 100 * (t + 1))
            && (replicas > 0 && percent < 0 ==> t == if replicas * percent <= -100 then 1 else 0)
  {
    if percent != 0 && replicas != 0 && percent <= 100 {
      ProductInRange(replicas, percent);
      assert Wrap64(replicas * percent) == replicas * percent;
    }
  }

  /** When the product overflows, even a negative percentage can give a threshold above the replica count. */
  lemma ThresholdOverflow()
    ensures CountThreshold(true, -0x4000_0000_0000_0000, 3) > 3
  {
    assert Wrap64(3 * -0x4000_0000_0000_0000) == 0x4000_0000_0000_0000;
  }

  lemma ProductInRange(replicas: int, percent: int)
    requires 0 <= replicas <= MAX_INT32 && percent <= 100
    ensures replicas * percent <= replicas * 100
    ensures percent >= 0 ==> replicas * percent >= 0
    ensures percent <= 0 ==> replicas * percent <= 0
  {
    MulMonotone(replicas, percent, 100);
    MulMonotone(replicas, if percent >= 0 then 0 else percent, if percent >= 0 then percent else 0);
  }

  lemma MulMonotone(k: int, x: int, y: int)
    requires k >= 0 && x <= y
    ensures k * x <= k * y
  {
    assert k * (y - x) >= 0;
    assert k * (y - x) == k * y - k * x;
  }
}
