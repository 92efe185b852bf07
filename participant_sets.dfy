/**
  The set reasoning `add_participant` relies on: how many registered users a
  request names, and the duplicate-free union of two participant lists.
*/
module ParticipantSets {
  import opened ObjectIds

  /** `set(s)`. */
  function Elements(s: seq<ObjectId>): set<ObjectId> {
    set x | x in s
  }

  predicate Distinct(s: seq<ObjectId>) {
    forall i, j | 0 <= i < j < |s| :: s[i] != s[j]
  }

  /**
    `len(User.find(In(User.id, ids)).to_list())`: the users collection holds
    one document per id, so the query finds each registered id once, however
    often it is requested.
  */
  function RegisteredCount(users: set<ObjectId>, ids: seq<ObjectId>): nat {
    |Elements(ids) * users|
  }

  /** A list has at most as many distinct elements as entries, and exactly as many when it has no repeats. */
  lemma {:induction false} ElementsCount(s: seq<ObjectId>)
    ensures |Elements(s)| <= |s|
    ensures |Elements(s)| == |s| <==> Distinct(s)
  {
    if s != [] {
      var t := s[1..];
      ElementsCount(t);
      assert Elements(s) == {s[0]} + Elements(t);
      if s[0] in t {
        assert Elements(s) == Elements(t);
        var k :| 0 <= k < |t| && t[k] == s[0];
        assert s[0] == s[k + 1];
      } else {
        assert |Elements(s)| == |Elements(t)| + 1;
        if Distinct(t) {
          forall i, j | 0 <= i < j < |s| ensures s[i] != s[j] {
            if i > 0 {
              assert s[i] == t[i - 1] && s[j] == t[j - 1];
            } else {
              assert s[j] == t[j - 1];
            }
          }
        }
      }
      if Distinct(s) {
        forall i, j | 0 <= i < j < |t| ensures t[i] != t[j] {
          assert t[i] == s[i + 1] && t[j] == s[j + 1];
        }
      }
    }
  }

  lemma {:induction false} SubsetCount(a: set<ObjectId>, b: set<ObjectId>)
    requires a <= b
    ensures |a| <= |b|
    ensures |a| == |b| ==> a == b
    decreases b
  {
    if b != {} {
      var x :| x in b;
      SubsetCount(a - {x}, b - {x});
      assert |b - {x}| == |b| - 1;
      if x in a {
        assert |a - {x}| == |a| - 1;
        assert a == (a - {x}) + {x} && b == (b - {x}) + {x};
      } else {
        assert a - {x} == a;
      }
    }
  }

  /**
    The request check of `add_participant`: the number of registered users
    found equals the number of ids requested exactly when every requested
    id is registered and none is requested twice.
  */
  lemma RegisteredCountMatches(users: set<ObjectId>, ids: seq<ObjectId>)
    ensures RegisteredCount(users, ids) == |ids| <==> Elements(ids) <= users && Distinct(ids)
  {
    var e := Elements(ids);
    ElementsCount(ids);
    SubsetCount(e * users, e);
    if RegisteredCount(users, ids) == |ids| {
      SubsetCount(e * users, e);
    }
    if e <= users {
      assert e * users == e;
    }
  }

  /** `list(set(s))`, with the order fixed to first occurrences. */
  function {:induction false} Dedup(s: seq<ObjectId>): (r: seq<ObjectId>)
    ensures Elements(r) == Elements(s)
    ensures Distinct(r)
  {
    if s == [] then []
    else
      var rest := Dedup(s[..|s| - 1]);
      var last := s[|s| - 1];
      assert Elements(s) == Elements(s[..|s| - 1]) + {last} by {
        assert s == s[..|s| - 1] + [last];
      }
      if last in rest then rest
      else
        var r := rest + [last];
        assert Elements(r) == Elements(rest) + {last};
        r
  }

  /**
    The participant list `add_participant` stores: every old and every new
    participant, each once.
  */
  function MergeParticipants(current: seq<ObjectId>, added: seq<ObjectId>): (r: seq<ObjectId>)
    ensures Elements(r) == Elements(current) + Elements(added)
    ensures Distinct(r)
  {
    assert Elements(current + added) == Elements(current) + Elements(added);
    Dedup(current + added)
  }

  /**
    When the request is duplicate-free and disjoint from the bill, the merged
    list has as many entries as the bill's distinct participants plus the ids
    requested; repeats already in the bill are dropped.
  */
  lemma MergeGrowsByRequest(current: seq<ObjectId>, added: seq<ObjectId>)
    requires Distinct(added)
    requires Elements(current) !! Elements(added)
    ensures |MergeParticipants(current, added)| == |Elements(current)| + |added|
  {
    var r := MergeParticipants(current, added);
    ElementsCount(r);
    ElementsCount(added);
    assert |Elements(current) + Elements(added)| == |Elements(current)| + |Elements(added)|;
  }
}
