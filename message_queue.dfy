/**
 * The main-looper `Handler` as a queue of delayed messages. Each message carries
 * the token it was posted with (`postAtTime(r, token, t)`; `postDelayed` posts with
 * a null token), the uptime at which it is due, and its action. The queue is kept in
 * due order and a message goes after every message due no later than it, as
 * Android's `MessageQueue.enqueueMessage` does, so the head is the next to run.
 */
module MessageQueue {
  import opened Wrappers

  datatype Message<A> = Message(token: Option<string>, due: int, action: A)

  predicate Sorted<A>(q: seq<Message<A>>)
  {
    forall i, j :: 0 <= i < j < |q| ==> q[i].due <= q[j].due
  }

  /** Where a message due at `due` goes: before the first message due strictly later. */
  function Position<A>(q: seq<Message<A>>, due: int): (k: nat)
    ensures k <= |q|
    ensures forall i :: 0 <= i < k ==> q[i].due <= due
    ensures k < |q| ==> q[k].due > due
  {
    if q == [] || q[0].due > due then 0 else 1 + Position(q[1..], due)
  }

  /** Posting a message: it goes in at Position, after every message due no later. */
  function Enqueue<A>(q: seq<Message<A>>, m: Message<A>): seq<Message<A>>
  {
    var k := Position(q, m.due);
    q[..k] + [m] + q[k..]
  }

  /** Posting adds exactly the one message, and a due-ordered queue stays due-ordered. */
  lemma EnqueueFacts<A(!new)>(q: seq<Message<A>>, m: Message<A>)
    ensures |Enqueue(q, m)| == |q| + 1
    ensures multiset(Enqueue(q, m)) == multiset(q) + multiset{m}
    ensures forall x :: x in Enqueue(q, m) <==> x in q || x == m
    ensures Sorted(q) ==> Sorted(Enqueue(q, m))
  {
    var k := Position(q, m.due);
    InsertContents(q, k, m);
    if Sorted(q) {
      InsertSorted(q, k, m);
    }
  }

  lemma InsertContents<A(!new)>(q: seq<Message<A>>, k: nat, m: Message<A>)
    requires k <= |q|
    ensures |q[..k] + [m] + q[k..]| == |q| + 1
    ensures multiset(q[..k] + [m] + q[k..]) == multiset(q) + multiset{m}
    ensures forall x :: x in q[..k] + [m] + q[k..] <==> x in q || x == m
  {
    var r := q[..k] + [m] + q[k..];
    assert q == q[..k] + q[k..];
    assert multiset(r) == multiset(q[..k]) + multiset{m} + multiset(q[k..]);
    forall x ensures x in r <==> x in q || x == m {
      assert x in r <==> multiset(r)[x] > 0;
      assert x in q <==> multiset(q)[x] > 0;
    }
  }

  /** Inserting at the position Position computes keeps a sorted queue sorted. */
  lemma InsertSorted<A>(q: seq<Message<A>>, k: nat, m: Message<A>)
    requires Sorted(q) && k <= |q|
    requires forall i :: 0 <= i < k ==> q[i].due <= m.due
    requires k < |q| ==> q[k].due > m.due
    ensures Sorted(q[..k] + [m] + q[k..])
  {
    var r := q[..k] + [m] + q[k..];
    forall i, j | 0 <= i < j < |r| ensures r[i].due <= r[j].due {
      if j < k {
        assert r[i] == q[i] && r[j] == q[j];
      } else if j == k {
        assert r[i] == q[i];
      } else if i < k {
        assert r[i] == q[i] && r[j] == q[j - 1];
      } else if i == k {
        assert r[j] == q[j - 1];
      } else {
        assert r[i] == q[i - 1] && r[j] == q[j - 1];
      }
    }
  }

  /** `removeCallbacksAndMessages(t)` for a token `t`: every message posted with `t` goes. */
  function Without<A>(q: seq<Message<A>>, t: string): seq<Message<A>>
  {
    if q == [] then []
    else if q[0].token == Some(t) then Without(q[1..], t)
    else [q[0]] + Without(q[1..], t)
  }

  /** `a` is `b` with some elements left out, the rest kept in their order. */
  predicate SubsequenceOf<T(==)>(a: seq<T>, b: seq<T>)
    decreases |b|
  {
    if a == [] then true
    else if b == [] then false
    else (a[0] == b[0] && SubsequenceOf(a[1..], b[1..])) || SubsequenceOf(a, b[1..])
  }

  /**
   * Without keeps exactly the messages under other tokens, each as often as it was
   * queued, in their order.
   */
  lemma WithoutFacts<A(!new)>(q: seq<Message<A>>, t: string)
    ensures forall x :: x in Without(q, t) <==> x in q && x.token != Some(t)
    ensures forall x :: multiset(Without(q, t))[x] == if x.token == Some(t) then 0 else multiset(q)[x]
    ensures SubsequenceOf(Without(q, t), q)
    ensures Sorted(q) ==> Sorted(Without(q, t))
  {
    WithoutMembers(q, t);
    WithoutCounts(q, t);
    WithoutInOrder(q, t);
    if Sorted(q) {
      WithoutSorted(q, t);
    }
  }

  lemma {:induction false} WithoutMembers<A(!new)>(q: seq<Message<A>>, t: string)
    ensures forall x :: x in Without(q, t) <==> x in q && x.token != Some(t)
  {
    if q != [] {
      WithoutMembers(q[1..], t);
      assert forall x :: x in q <==> x == q[0] || x in q[1..];
    }
  }

  lemma {:induction false} WithoutCounts<A(!new)>(q: seq<Message<A>>, t: string)
    ensures forall x :: multiset(Without(q, t))[x] == if x.token == Some(t) then 0 else multiset(q)[x]
  {
    if q != [] {
      WithoutCounts(q[1..], t);
      assert q == [q[0]] + q[1..];
    }
  }

  lemma {:induction false} WithoutInOrder<A>(q: seq<Message<A>>, t: string)
    ensures SubsequenceOf(Without(q, t), q)
  {
    if q != [] {
      WithoutInOrder(q[1..], t);
      if q[0].token != Some(t) {
        assert ([q[0]] + Without(q[1..], t))[1..] == Without(q[1..], t);
      } else if Without(q, t) != [] {
        assert SubsequenceOf(Without(q, t), q[1..]);
      }
    }
  }

  lemma {:induction false} WithoutSorted<A(!new)>(q: seq<Message<A>>, t: string)
    requires Sorted(q)
    ensures Sorted(Without(q, t))
  {
    if q != [] {
      assert Sorted(q[1..]);
      WithoutSorted(q[1..], t);
      if q[0].token != Some(t) {
        var rest := Without(q[1..], t);
        WithoutMembers(q[1..], t);
        forall x | x in rest ensures q[0].due <= x.due {
          var i :| 0 <= i < |q[1..]| && q[1..][i] == x;
          assert q[i + 1] == x;
        }
        ConsSorted(q[0], rest);
      }
    }
  }

  lemma ConsSorted<A>(m: Message<A>, q: seq<Message<A>>)
    requires Sorted(q) && forall x :: x in q ==> m.due <= x.due
    ensures Sorted([m] + q)
  {
    var r := [m] + q;
    forall i, j | 0 <= i < j < |r| ensures r[i].due <= r[j].due {
      if i == 0 {
        assert r[j] in q;
      } else {
        assert r[i] == q[i - 1] && r[j] == q[j - 1];
      }
    }
  }

  /** `removeCallbacksAndMessages(token)`: a null token removes every message. */
  function Remove<A>(q: seq<Message<A>>, token: Option<string>): seq<Message<A>>
  {
    if token.None? then [] else Without(q, token.value)
  }

  /** The debounce idiom: drop the messages posted with `t`, then post one new message with `t`. */
  function Debounce<A>(q: seq<Message<A>>, t: string, due: int, action: A): seq<Message<A>>
  {
    Enqueue(Without(q, t), Message(Some(t), due, action))
  }

  /** The number of messages posted with `token`. */
  function CountToken<A>(q: seq<Message<A>>, token: Option<string>): nat
  {
    if q == [] then 0 else (if q[0].token == token then 1 else 0) + CountToken(q[1..], token)
  }

  lemma {:induction false} CountTokenZero<A(!new)>(q: seq<Message<A>>, token: Option<string>)
    ensures CountToken(q, token) == 0 <==> forall x :: x in q ==> x.token != token
  {
    if q != [] {
      CountTokenZero(q[1..], token);
      assert forall x :: x in q <==> x == q[0] || x in q[1..];
    }
  }

  lemma {:induction false} CountTokenAppend<A>(a: seq<Message<A>>, b: seq<Message<A>>, token: Option<string>)
    ensures CountToken(a + b, token) == CountToken(a, token) + CountToken(b, token)
  {
    if a == [] {
      assert a + b == b;
    } else {
      assert (a + b)[1..] == a[1..] + b;
      CountTokenAppend(a[1..], b, token);
    }
  }

  lemma CountTokenEnqueue<A(!new)>(q: seq<Message<A>>, m: Message<A>, token: Option<string>)
    ensures CountToken(Enqueue(q, m), token) == CountToken(q, token) + (if m.token == token then 1 else 0)
  {
    var k := Position(q, m.due);
    assert q == q[..k] + q[k..];
    assert Enqueue(q, m) == q[..k] + ([m] + q[k..]);
    CountTokenAppend(q[..k], [m] + q[k..], token);
    CountTokenAppend([m], q[k..], token);
    CountTokenAppend(q[..k], q[k..], token);
  }

  lemma {:induction false} CountTokenWithout<A(!new)>(q: seq<Message<A>>, t: string, token: Option<string>)
    ensures CountToken(Without(q, t), token) == if token == Some(t) then 0 else CountToken(q, token)
  {
    if q != [] {
      CountTokenWithout(q[1..], t, token);
      if q[0].token != Some(t) {
        assert ([q[0]] + Without(q[1..], t))[1..] == Without(q[1..], t);
      }
    }
  }

  /** After a debounce, exactly one message carries the token (the new one), and no other token's count moves. */
  lemma DebounceLeavesOne<A(!new)>(q: seq<Message<A>>, t: string, due: int, action: A)
    ensures CountToken(Debounce(q, t, due, action), Some(t)) == 1
    ensures forall token :: token != Some(t) ==> CountToken(Debounce(q, t, due, action), token) == CountToken(q, token)
    ensures forall x :: x in Debounce(q, t, due, action) && x.token == Some(t) ==> x == Message(Some(t), due, action)
    ensures forall x :: x in q && x.token != Some(t) ==> x in Debounce(q, t, due, action)
  {
    forall token ensures CountToken(Debounce(q, t, due, action), token) ==
      if token == Some(t) then 1 else CountToken(q, token)
    {
      CountTokenEnqueue(Without(q, t), Message(Some(t), due, action), token);
      CountTokenWithout(q, t, token);
    }
    WithoutFacts(q, t);
    EnqueueFacts(Without(q, t), Message(Some(t), due, action));
  }

  /** A burst of debounced posts under one token, applied in order (the last one last). */
  function Burst<A(!new)>(q: seq<Message<A>>, t: string, posts: seq<(int, A)>): seq<Message<A>>
    decreases |posts|
  {
    if posts == [] then q
    else
      var last := posts[|posts| - 1];
      Debounce(Burst(q, t, posts[..|posts| - 1]), t, last.0, last.1)
  }

  /**
   * However many posts a burst holds, one message with its token survives, and it is
   * the last post's; messages under other tokens are all kept.
   */
  lemma {:induction false} BurstKeepsLast<A(!new)>(q: seq<Message<A>>, t: string, posts: seq<(int, A)>)
    requires |posts| > 0
    ensures CountToken(Burst(q, t, posts), Some(t)) == 1
    ensures Message(Some(t), posts[|posts| - 1].0, posts[|posts| - 1].1) in Burst(q, t, posts)
    ensures forall x :: x in Burst(q, t, posts) && x.token == Some(t) ==>
      x == Message(Some(t), posts[|posts| - 1].0, posts[|posts| - 1].1)
    ensures forall x :: x in q && x.token != Some(t) ==> x in Burst(q, t, posts)
  {
    var init := posts[..|posts| - 1];
    var last := posts[|posts| - 1];
    var before := Burst(q, t, init);
    DebounceLeavesOne(before, t, last.0, last.1);
    if |init| > 0 {
      BurstKeepsLast(q, t, init);
    } else {
      assert before == q;
    }
  }
}
