/** The `session_device` keys of the softbus channel adapter: building them, taking them
    apart, and what the substring test on them means. */
module SessionKeys {

  const AV_SYNC_SENDER_CONTROL_SESSION_NAME := "ohos.dhardware.av.sync.sender.control"
  const AV_SYNC_RECEIVER_CONTROL_SESSION_NAME := "ohos.dhardware.av.sync.receiver.control"
  const AV_TRANS_SPECIAL_DEVICE_ID := "av.trans.special.device.id"

  function Key(sess: string, dev: string): string {
    sess + "_" + dev
  }

  predicate OccursAt(text: string, s: string, i: int) {
    0 <= i <= |text| - |s| && forall j :: 0 <= j < |s| ==> text[i + j] == s[j]
  }

  /** `s` occurs somewhere in `text`. */
  predicate Contains(text: string, s: string) {
    exists i :: 0 <= i <= |text| && OccursAt(text, s, i)
  }

  predicate NoBar(s: string) {
    forall i :: 0 <= i < |s| ==> s[i] != '_'
  }

  function FirstBar(s: string): (p: int)
    ensures -1 <= p < |s|
    ensures p < 0 ==> NoBar(s)
    ensures p >= 0 ==> s[p] == '_' && forall i :: 0 <= i < p ==> s[i] != '_'
  {
    if s == [] then -1
    else if s[0] == '_' then 0
    else
      var r := FirstBar(s[1..]);
      assert forall i :: 1 <= i < |s| ==> s[i] == s[1..][i - 1];
      if r < 0 then -1 else r + 1
  }

  function LastBar(s: string): (p: int)
    ensures -1 <= p < |s|
    ensures p < 0 ==> NoBar(s)
    ensures p >= 0 ==> s[p] == '_' && forall i :: p < i < |s| ==> s[i] != '_'
  {
    if s == [] then -1
    else if s[|s| - 1] == '_' then |s| - 1
    else LastBar(s[..|s| - 1])
  }

  /** The part before the first bar; the two bar-less control sessions own themselves. */
  function OwnerOf(s: string): string {
    var p := FirstBar(s);
    if p >= 0 then s[..p]
    else if s == AV_SYNC_SENDER_CONTROL_SESSION_NAME || s == AV_SYNC_RECEIVER_CONTROL_SESSION_NAME then s
    else ""
  }

  /** The part after the last bar of a key that has one. */
  function DeviceOf(key: string): string
    requires !NoBar(key)
  {
    key[LastBar(key) + 1..]
  }

  // ----- keys take apart as they were put together

  lemma DeviceRecovered(sess: string, dev: string)
    requires NoBar(dev)
    ensures !NoBar(Key(sess, dev)) && DeviceOf(Key(sess, dev)) == dev
    ensures Key(sess, dev)[..LastBar(Key(sess, dev))] == sess
  {
    var k := Key(sess, dev);
    assert k[|sess|] == '_';
    assert forall j :: |sess| < j < |k| ==> k[j] == dev[j - |sess| - 1];
  }

  lemma OwnerRecovered(owner: string, rest: string)
    requires NoBar(owner)
    ensures OwnerOf(owner + "_" + rest) == owner
  {
    var k := owner + "_" + rest;
    assert k[|owner|] == '_';
    assert forall j :: 0 <= j < |owner| ==> k[j] == owner[j];
  }

  /** Key building is injective, whatever the session names are. */
  lemma KeyIsInjective(sess1: string, dev1: string, sess2: string, dev2: string)
    requires NoBar(dev1) && NoBar(dev2)
    requires Key(sess1, dev1) == Key(sess2, dev2)
    ensures sess1 == sess2 && dev1 == dev2
  {
    DeviceRecovered(sess1, dev1);
    DeviceRecovered(sess2, dev2);
  }

  // ----- the substring test

  predicate IsPrefix(s: string, t: string) {
    OccursAt(t, s, 0)
  }

  predicate IsSuffix(s: string, t: string) {
    OccursAt(t, s, |t| - |s|)
  }

  lemma Found(text: string, s: string, i: int)
    requires OccursAt(text, s, i)
    ensures Contains(text, s)
  {
  }

  /** An occurrence of `t` in `a_b` is inside one part, or covers the bar. */
  lemma OccursInJoin(a: string, b: string, t: string, i: int)
    ensures i + |t| <= |a| ==> (OccursAt(a + "_" + b, t, i) <==> OccursAt(a, t, i))
    ensures i > |a| ==> (OccursAt(a + "_" + b, t, i) <==> OccursAt(b, t, i - |a| - 1))
    ensures i <= |a| < i + |t| && OccursAt(a + "_" + b, t, i) ==> t[|a| - i] == '_'
  {
    var k := a + "_" + b;
    assert forall j :: 0 <= j < |a| ==> k[j] == a[j];
    assert forall j :: |a| < j < |k| ==> k[j] == b[j - |a| - 1];
    assert forall j :: 0 <= j < |b| ==> k[|a| + 1 + j] == b[j];
    if i <= |a| < i + |t| && OccursAt(k, t, i) {
      assert k[i + (|a| - i)] == t[|a| - i];
    }
  }

  lemma FoundInParts(a: string, b: string, t: string)
    ensures Contains(a, t) ==> Contains(a + "_" + b, t)
    ensures Contains(b, t) ==> Contains(a + "_" + b, t)
  {
    if Contains(a, t) {
      var i :| 0 <= i <= |a| && OccursAt(a, t, i);
      OccursInJoin(a, b, t, i);
      Found(a + "_" + b, t, i);
    }
    if Contains(b, t) {
      var i :| 0 <= i <= |b| && OccursAt(b, t, i);
      OccursInJoin(a, b, t, i + |a| + 1);
      Found(a + "_" + b, t, i + |a| + 1);
    }
  }

  /** Searching a name without bars never crosses a bar. */
  lemma PlainSearch(a: string, b: string, t: string)
    requires NoBar(t) && t != ""
    ensures Contains(a + "_" + b, t) <==> Contains(a, t) || Contains(b, t)
  {
    var k := a + "_" + b;
    FoundInParts(a, b, t);
    if Contains(k, t) {
      var i :| 0 <= i <= |k| && OccursAt(k, t, i);
      OccursInJoin(a, b, t, i);
      if i <= |a| {
        Found(a, t, i);
      } else {
        Found(b, t, i - |a| - 1);
      }
    }
  }

  /** Searching `o_s` in `a_b`: either the bars line up, or it occurs after the bar. */
  lemma BarSearch(a: string, b: string, o: string, s: string)
    requires NoBar(a) && NoBar(o)
    ensures Contains(a + "_" + b, o + "_" + s) <==> (IsSuffix(o, a) && IsPrefix(s, b)) || Contains(b, o + "_" + s)
  {
    var k, t := a + "_" + b, o + "_" + s;
    FoundInParts(a, b, t);
    if Contains(k, t) {
      var i :| 0 <= i <= |k| && OccursAt(k, t, i);
      OccursInJoin(a, b, t, i);
      NoOccurrence(a, o, s, i);
      if i > |a| {
        Found(b, t, i - |a| - 1);
      } else {
        BarsLineUp(a, b, o, s, i);
      }
    }
    if IsSuffix(o, a) && IsPrefix(s, b) {
      BarsLinedUp(a, b, o, s);
    }
  }

  lemma BarsLineUp(a: string, b: string, o: string, s: string, i: nat)
    requires NoBar(a) && NoBar(o) && i <= |a| < i + |o + "_" + s| && (o + "_" + s)[|a| - i] == '_'
    requires OccursAt(a + "_" + b, o + "_" + s, i)
    ensures IsSuffix(o, a) && IsPrefix(s, b)
  {
    var k, t := a + "_" + b, o + "_" + s;
    CharOf(k, t, i, |o|);
    assert i + |o| == |a|;
    forall j | 0 <= j < |o| ensures a[|a| - |o| + j] == o[j] {
      CharOf(k, t, i, j);
    }
    forall j | 0 <= j < |s| ensures b[0 + j] == s[j] {
      CharOf(k, t, i, |o| + 1 + j);
    }
  }

  lemma CharOf(text: string, s: string, i: int, j: int)
    requires OccursAt(text, s, i) && 0 <= j < |s|
    ensures text[i + j] == s[j]
  {
  }

  lemma BarsLinedUp(a: string, b: string, o: string, s: string)
    requires IsSuffix(o, a) && IsPrefix(s, b)
    ensures Contains(a + "_" + b, o + "_" + s)
  {
    var k, t := a + "_" + b, o + "_" + s;
    var i := |a| - |o|;
    forall j | 0 <= j < |t| ensures k[i + j] == t[j] {
      if j < |o| {
        assert k[i + j] == a[i + j];
      } else if j > |o| {
        assert k[i + j] == b[j - |o| - 1];
      }
    }
    Found(k, t, i);
  }

  lemma Mismatch(text: string, s: string, i: int, j: int)
    requires 0 <= i <= |text| - |s| && 0 <= j < |s| && text[i + j] != s[j]
    ensures !OccursAt(text, s, i)
  {
  }

  lemma NoOccurrence(b: string, o: string, s: string, i: int)
    requires NoBar(b)
    ensures !OccursAt(b, o + "_" + s, i)
  {
    if 0 <= i <= |b| - |o + "_" + s| {
      Mismatch(b, o + "_" + s, i, |o|);
    }
  }

  lemma NoBarInside(b: string, o: string, s: string)
    requires NoBar(b)
    ensures !Contains(b, o + "_" + s)
  {
    forall i ensures !OccursAt(b, o + "_" + s, i) {
      NoOccurrence(b, o, s, i);
    }
  }

  function SessionName(owner: string, suffix: string): string {
    owner + "_" + suffix
  }

  /** The substring test on the key of an `owner_suffix` session, exactly: it also accepts
      names whose owner ends and whose suffix begins like those of the key. */
  lemma SubstringTest(o1: string, s1: string, dev: string, o2: string, s2: string)
    requires NoBar(o1) && NoBar(s1) && NoBar(dev) && NoBar(o2) && NoBar(s2)
    ensures Contains(Key(SessionName(o1, s1), dev), SessionName(o2, s2)) <==>
      (IsSuffix(o2, o1) && IsPrefix(s2, s1)) || (IsSuffix(o2, s1) && IsPrefix(s2, dev))
  {
    var k := Key(s1, dev);
    OccursInJoin(s1, dev, s2, 0);
    assert Key(SessionName(o1, s1), dev) == o1 + "_" + Key(s1, dev);
    BarSearch(o1, k, o2, s2);
    BarSearch(s1, dev, o2, s2);
    NoBarInside(dev, o2, s2);
  }

  /** Names for which routing by substring is routing by equality. */
  predicate Unambiguous(o1: string, s1: string, dev: string, o2: string, s2: string) {
    && (IsSuffix(o2, o1) ==> o2 == o1)
    && (IsPrefix(s2, s1) ==> s2 == s1)
    && !(IsSuffix(o2, s1) && IsPrefix(s2, dev))
  }

  lemma RoutingIsByEquality(o1: string, s1: string, dev: string, o2: string, s2: string)
    requires NoBar(o1) && NoBar(s1) && NoBar(dev) && NoBar(o2) && NoBar(s2)
    requires Unambiguous(o1, s1, dev, o2, s2)
    ensures Contains(Key(SessionName(o1, s1), dev), SessionName(o2, s2)) <==>
      SessionName(o1, s1) == SessionName(o2, s2)
  {
    SubstringTest(o1, s1, dev, o2, s2);
    if SessionName(o1, s1) == SessionName(o2, s2) {
      OwnerRecovered(o1, s1);
      OwnerRecovered(o2, s2);
      assert SessionName(o1, s1)[|o1| + 1..] == s1 && SessionName(o2, s2)[|o2| + 1..] == s2;
    }
  }

  // ----- the names the transport layer uses

  const OWNER_NAME_D_CAMERA := "ohos.dhardware.dcamera"
  const OWNER_NAME_D_SCREEN := "ohos.dhardware.dscreen"
  const OWNER_NAME_D_MIC := "ohos.dhardware.daudio.dmic"
  const OWNER_NAME_D_SPEAKER := "ohos.dhardware.daudio.dspeaker"
  const OWNER_NAME_D_VIRMODEM_MIC := "ohos.dhardware.dcall.dmic"
  const OWNER_NAME_D_VIRMODEM_SPEAKER := "ohos.dhardware.dcall.dspeaker"

  const SENDER_CONTROL_SESSION_NAME_SUFFIX := "sender.avtrans.control"
  const RECEIVER_CONTROL_SESSION_NAME_SUFFIX := "receiver.avtrans.control"
  const SENDER_DATA_SESSION_NAME_SUFFIX := "sender.avtrans.data"
  const RECEIVER_DATA_SESSION_NAME_SUFFIX := "receiver.avtrans.data"

  predicate IsOwner(o: string) {
    || o == OWNER_NAME_D_CAMERA || o == OWNER_NAME_D_SCREEN || o == OWNER_NAME_D_MIC
    || o == OWNER_NAME_D_SPEAKER || o == OWNER_NAME_D_VIRMODEM_MIC || o == OWNER_NAME_D_VIRMODEM_SPEAKER
  }

  predicate IsNameSuffix(s: string) {
    || s == SENDER_CONTROL_SESSION_NAME_SUFFIX || s == RECEIVER_CONTROL_SESSION_NAME_SUFFIX
    || s == SENDER_DATA_SESSION_NAME_SUFFIX || s == RECEIVER_DATA_SESSION_NAME_SUFFIX
  }

  /** No owner name ends in another owner name or in a session suffix, and no suffix starts
      with another, so for every device id without a bar the adapter routes by equality. */
  lemma TransportNamesAreUnambiguous(o1: string, s1: string, dev: string, o2: string, s2: string)
    requires IsOwner(o1) && IsOwner(o2) && IsNameSuffix(s1) && IsNameSuffix(s2)
    ensures Unambiguous(o1, s1, dev, o2, s2)
  {
    OwnersDiffer(o1, o2);
    SuffixesDiffer(s1, s2);
    OwnerIsNotInSuffix(s1, o2);
  }

  lemma OwnersDiffer(o1: string, o2: string)
    requires IsOwner(o1) && IsOwner(o2)
    ensures IsSuffix(o2, o1) ==> o2 == o1
  {
    var d := |o1| - |o2|;
    if IsSuffix(o2, o1) {
      assert o1[d + (|o2| - 1)] == o2[|o2| - 1];
      assert o1[d + (|o2| - 6)] == o2[|o2| - 6];
      assert o1[d + (|o2| - 10)] == o2[|o2| - 10];
    }
  }

  lemma SuffixesDiffer(s1: string, s2: string)
    requires IsNameSuffix(s1) && IsNameSuffix(s2)
    ensures IsPrefix(s2, s1) ==> s2 == s1
  {
    if IsPrefix(s2, s1) {
      assert s1[0 + 0] == s2[0] && s1[0 + 15] == s2[15] && s1[0 + 17] == s2[17];
    }
  }

  lemma OwnerIsNotInSuffix(s1: string, o2: string)
    requires IsNameSuffix(s1) && IsOwner(o2)
    ensures !IsSuffix(o2, s1)
  {
    var d := |s1| - |o2|;
    if d >= 0 {
      Mismatch(s1, o2, d, if s1[|s1| - 1] != o2[|o2| - 1] then |o2| - 1 else |o2| - 2);
    }
  }
}
