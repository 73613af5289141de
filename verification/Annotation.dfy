/** Mount-pod annotations: the reference keys, the two delay keys, and the delayed-delete clock. */
module Annotation {
  import opened Text
  import opened TargetPath

  type Annotations = map<string, string>

  const REFERENCE_PREFIX := "mosfs-"
  const DELAY_TIME_KEY := "mosfs-delete-delay"
  const DELAY_AT_KEY := "mosfs-delete-at"

  /** The hexadecimal SHA-256 digest of a text: an arbitrary function, nothing but the length of
      its results is known. */
  type Digest = d: string | |d| == 64 witness seq(64, _ => '0')
  const Sha256: string -> Digest

  /** `GetReferenceKey`: the prefix and the first 57 digits of the digest. */
  function ReferenceKey(target: string): (k: string)
    ensures |k| == 63 && REFERENCE_PREFIX <= k
    ensures k != DELAY_TIME_KEY && k != DELAY_AT_KEY
  {
    (REFERENCE_PREFIX + Sha256(target))[..63]
  }

  /** Two targets share a key exactly if the first 57 digits of their digests agree. */
  lemma KeysAreDigests(t: string, u: string)
    ensures ReferenceKey(t) == ReferenceKey(u) <==> Sha256(t)[..57] == Sha256(u)[..57]
  {
    assert ReferenceKey(t)[6..] == Sha256(t)[..57] && ReferenceKey(u)[6..] == Sha256(u)[..57];
    assert ReferenceKey(t) == REFERENCE_PREFIX + Sha256(t)[..57] && ReferenceKey(u) == REFERENCE_PREFIX + Sha256(u)[..57];
  }

  /** No two of these targets share a reference key. */
  ghost predicate Collisionless(targets: set<string>) {
    forall t, u :: t in targets && u in targets && ReferenceKey(t) == ReferenceKey(u) ==> t == u
  }

  predicate IsReference(a: Annotations, k: string) {
    k in a && k == ReferenceKey(a[k])
  }

  /** `GetAllRefKeys`. */
  function References(a: Annotations): (r: Annotations)
    ensures r.Keys <= a.Keys
  {
    map k | k in a && k == ReferenceKey(a[k]) :: a[k]
  }

  /** The pod of `a` refers to `target`. */
  predicate RefersTo(a: Annotations, target: string) {
    ReferenceKey(target) in a && a[ReferenceKey(target)] == target
  }

  /** `hasRef`: some key has the prefix. */
  predicate HasPrefixedKey(a: Annotations) {
    exists k :: k in a && REFERENCE_PREFIX <= k
  }

  /** `hasRef` holds of every annotation map with a reference, and of every one with a delay. */
  lemma HasPrefixedKeyCovers(a: Annotations)
    ensures References(a) != map[] ==> HasPrefixedKey(a)
    ensures DELAY_TIME_KEY in a || DELAY_AT_KEY in a ==> HasPrefixedKey(a)
  {
    if References(a) != map[] {
      var k :| k in References(a);
      assert k in a && REFERENCE_PREFIX <= k;
    }
    assert REFERENCE_PREFIX <= DELAY_TIME_KEY && REFERENCE_PREFIX <= DELAY_AT_KEY;
  }

  // --- live and dead references -------------------------------------------------------------

  /** The targets named in `a` whose application pod is among the listed uids, whether or not that
      pod is terminating. */
  function LiveTargets(a: Annotations, listed: set<string>): set<string> {
    set k | k in a && PodUid(a[k]) in listed :: a[k]
  }

  /** References to drop: their target is not live. */
  function DeadKeys(a: Annotations, live: set<string>): set<string> {
    set k | k in a && k == ReferenceKey(a[k]) && a[k] !in live
  }

  function LiveKeys(a: Annotations, live: set<string>): set<string> {
    set k | k in a && k == ReferenceKey(a[k]) && a[k] in live
  }

  // --- the delayed-delete clock -------------------------------------------------------------

  /** Instants are nanoseconds of universal time. */
  const SECOND := 1_000_000_000

  /** `time.ParseDuration`, arbitrary: nanoseconds, or nothing for a text it rejects. */
  const ParseDuration: string -> Option<int>

  /** The layout "2006-01-02 15:04:05" as a pair of functions between whole civil seconds and
      texts: arbitrary but for printing non-empty texts that parse back. */
  datatype Layout = Layout(format: int -> string, parse: string -> Option<int>)

  ghost predicate IsLayout(l: Layout) {
    forall n :: l.format(n) != "" && l.parse(l.format(n)) == Some(n)
  }

  function Tally(n: int): (s: string)
    ensures s != "" && Untally(s) == Some(n)
  {
    if n >= 0 then ['+'] + seq(n, _ => '1') else ['-'] + seq(-n, _ => '1')
  }

  function Untally(s: string): Option<int> {
    if s == "" then None else if s[0] == '-' then Some(1 - |s|) else Some(|s| - 1)
  }

  type DateTime = l: Layout | IsLayout(l) witness Layout(Tally, Untally)
  const CivilTime: DateTime

  function FloorToSecond(t: int): int {
    t / SECOND * SECOND
  }

  /** `GetTimeAfterDelay` at instant `now` in a process `zone` nanoseconds ahead of universal time. */
  function TimeAfterDelay(delay: string, now: int, zone: int): Option<string> {
    match ParseDuration(delay)
    case None => None
    case Some(d) => Some(CivilTime.format((now + d + zone) / SECOND))
  }

  /** `GetTime`: the printed civil time read as universal time. */
  function ParseTime(s: string): Option<int> {
    match CivilTime.parse(s)
    case None => None
    case Some(n) => Some(n * SECOND)
  }

  datatype Delay =
    | Expired                  // `ShouldDelay` answers false: the pod may be deleted
    | Waiting                  // it answers true without writing
    | Arm(deleteAt: string)    // it answers true after adding the delete-at annotation

  /** The decision of `ShouldDelay` on an annotation map. */
  function ShouldDelay(a: Annotations, now: int, zone: int): Delay {
    if DELAY_TIME_KEY !in a then Expired
    else if DELAY_AT_KEY !in a then
      match TimeAfterDelay(a[DELAY_TIME_KEY], now, zone)
      case None => Expired
      case Some(d) => Arm(d)
    else
      match ParseTime(a[DELAY_AT_KEY])
      case None => Expired
      case Some(at) => if now < at then Waiting else Expired
  }

  /** The deadline written at `armed` is the floor of `armed + delay + zone`: a later decision
      expires exactly from that instant on. */
  lemma DeadlineIsFloor(a: Annotations, armed: int, zone: int, later: int, laterZone: int)
    requires DELAY_TIME_KEY in a && DELAY_AT_KEY !in a && ShouldDelay(a, armed, zone).Arm?
    ensures ParseDuration(a[DELAY_TIME_KEY]).Some?
    ensures
      var due := FloorToSecond(armed + ParseDuration(a[DELAY_TIME_KEY]).value + zone);
      var b := a[DELAY_AT_KEY := ShouldDelay(a, armed, zone).deleteAt];
      && ParseTime(b[DELAY_AT_KEY]) == Some(due)
      && ShouldDelay(b, later, laterZone) == (if later < due then Waiting else Expired)
  {
    var d := ParseDuration(a[DELAY_TIME_KEY]).value;
    var n := (armed + d + zone) / SECOND;
    assert CivilTime.parse(CivilTime.format(n)) == Some(n);
  }

  /** In universal time a pod is never deleted as much as one second before its delay is over, and
      a zone of whole seconds moves the deadline by exactly that much. */
  lemma DeadlineBounds(t: int, zoneSeconds: int)
    ensures t - SECOND < FloorToSecond(t) <= t
    ensures FloorToSecond(t + zoneSeconds * SECOND) == FloorToSecond(t) + zoneSeconds * SECOND
  {
    assert t == t / SECOND * SECOND + t % SECOND;
    assert (t + zoneSeconds * SECOND) / SECOND == t / SECOND + zoneSeconds;
  }

  // --- well-formed annotations --------------------------------------------------------------

  /** Every prefixed key is a delay key or the reference of one of `targets`, the delay parses (it
      was parsed before the pod was created) and so does the deadline. */
  ghost predicate WellFormed(a: Annotations, targets: set<string>) {
    && (forall k :: k in a && REFERENCE_PREFIX <= k && k != DELAY_TIME_KEY && k != DELAY_AT_KEY ==>
          k == ReferenceKey(a[k]) && a[k] in targets)
    && (DELAY_TIME_KEY in a ==> ParseDuration(a[DELAY_TIME_KEY]).Some?)
    && (DELAY_AT_KEY in a ==> a[DELAY_AT_KEY] != "" && ParseTime(a[DELAY_AT_KEY]).Some?)
  }

  /** A running delete timer belongs to a delay, and to a pod without references. */
  ghost predicate TimerConsistent(a: Annotations) {
    DELAY_AT_KEY in a ==> DELAY_TIME_KEY in a && forall k :: k in a ==> k != ReferenceKey(a[k])
  }
}
