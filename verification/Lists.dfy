/** Lists of names without repetition. */
module Lists {

  ghost predicate NoRepeat(s: seq<nat>) { forall i, j | 0 <= i < j < |s| :: s[i] != s[j] }

  function Remove(s: seq<nat>, id: nat): seq<nat> {
    if s == [] then []
    else if s[0] == id then Remove(s[1..], id)
    else [s[0]] + Remove(s[1..], id)
  }

  lemma {:induction false} RemoveFacts(s: seq<nat>, id: nat)
    ensures forall x :: x in Remove(s, id) <==> x in s && x != id
    ensures NoRepeat(s) ==> NoRepeat(Remove(s, id))
    ensures NoRepeat(s) ==> |Remove(s, id)| == |s| - (if id in s then 1 else 0)
  {
    if s != [] {
      RemoveFacts(s[1..], id);
      assert s == [s[0]] + s[1..];
      assert NoRepeat(s) ==> NoRepeat(s[1..]) && s[0] !in s[1..];
    }
  }

  lemma {:induction false} RemoveMissing(s: seq<nat>, id: nat)
    requires id !in s
    ensures Remove(s, id) == s
  {
    if s != [] { RemoveMissing(s[1..], id); }
  }

  lemma {:induction false} RemoveAt(s: seq<nat>, k: nat)
    requires k < |s| && NoRepeat(s)
    ensures Remove(s, s[k]) == s[..k] + s[k + 1..]
  {
    if k == 0 {
      RemoveMissing(s[1..], s[0]);
    } else {
      assert NoRepeat(s[1..]) && s[1..][k - 1] == s[k];
      RemoveAt(s[1..], k - 1);
      assert s[1..][..k - 1] == s[1..k] && s[1..][k..] == s[k + 1..];
      assert s[..k] == [s[0]] + s[1..k];
    }
  }

  /** The list with one name put in place of another. */
  function Replace(s: seq<nat>, x: nat, y: nat): (r: seq<nat>)
    ensures |r| == |s|
  {
    if s == [] then [] else [if s[0] == x then y else s[0]] + Replace(s[1..], x, y)
  }

  lemma {:induction false} ReplaceFacts(s: seq<nat>, x: nat, y: nat)
    requires NoRepeat(s) && x in s && y !in s
    ensures NoRepeat(Replace(s, x, y)) && forall z :: z in Replace(s, x, y) <==> (z in s && z != x) || z == y
  {
    assert s == [s[0]] + s[1..];
    assert NoRepeat(s[1..]) && s[0] !in s[1..];
    var t := Replace(s[1..], x, y);
    if s[0] == x {
      ReplaceMissing(s[1..], x, y);
      ConsFacts(y, t);
    } else {
      ReplaceFacts(s[1..], x, y);
      ConsFacts(s[0], t);
    }
  }

  lemma {:induction false} ConsFacts(x: nat, t: seq<nat>)
    ensures forall z :: z in [x] + t <==> z == x || z in t
    ensures NoRepeat([x] + t) <==> NoRepeat(t) && x !in t
  {
    var s := [x] + t;
    assert s[1..] == t;
    if NoRepeat(s) {
      forall i, j | 0 <= i < j < |t| ensures t[i] != t[j] { assert s[i + 1] != s[j + 1]; }
      forall i | 0 <= i < |t| ensures t[i] != x { assert s[0] != s[i + 1]; }
    }
  }

  lemma {:induction false} ReplaceMissing(s: seq<nat>, x: nat, y: nat)
    requires x !in s
    ensures Replace(s, x, y) == s
  {
    if s != [] { ReplaceMissing(s[1..], x, y); }
  }
}
