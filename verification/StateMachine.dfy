// The replicated key-value map as a fold over committed entries.
module StateMachine {
  import opened Bincode
  import opened KvCommand
  import opened RaftTypes
  import opened Utf8
  import opened Wrappers

  function Assign(m: KvMap, p: Put): KvMap {
    m[p.key := p.value]
  }

  /** The Put an entry performs when it is applied, if any. */
  function PutIn(e: Entry): Option<Put> {
    if e.data == [] || !e.kind.EntryNormal? then None
    else
      match DecodeCommand(e.data)
      case Ok(cmd) => cmd
      case Err => None
  }

  function ApplyEntry(m: KvMap, e: Entry): KvMap {
    match PutIn(e)
    case Some(p) => Assign(m, p)
    case None => m
  }

  function Fold(m: KvMap, es: seq<Entry>): KvMap {
    if es == [] then m else ApplyEntry(Fold(m, es[..|es| - 1]), es[|es| - 1])
  }

  /** Entry `j` is the last one to put `key`. */
  predicate IsLastPut(es: seq<Entry>, key: Str, j: int) {
    && 0 <= j < |es|
    && Puts(es[j], key)
    && forall i | j < i < |es| :: !Puts(es[i], key)
  }

  predicate Puts(e: Entry, key: Str) {
    PutIn(e).Some? && PutIn(e).value.key == key
  }

  ghost predicate PutSomewhere(es: seq<Entry>, key: Str) {
    exists i :: 0 <= i < |es| && Puts(es[i], key)
  }

  lemma PutSomewhereSnoc(es: seq<Entry>, key: Str)
    requires es != []
    ensures PutSomewhere(es, key) <==> PutSomewhere(es[..|es| - 1], key) || Puts(es[|es| - 1], key)
  {
    hide Puts;
    var front := es[..|es| - 1];
    if PutSomewhere(es, key) {
      var i :| 0 <= i < |es| && Puts(es[i], key);
      assert i < |front| ==> Puts(front[i], key);
    }
    if PutSomewhere(front, key) {
      var i :| 0 <= i < |front| && Puts(front[i], key);
      assert Puts(es[i], key);
    }
  }

  lemma {:induction false} FoldConcat(m: KvMap, a: seq<Entry>, b: seq<Entry>)
    ensures Fold(m, a + b) == Fold(Fold(m, a), b)
  {
    hide ApplyEntry;
    if b == [] {
      assert a + b == a;
    } else {
      var front := b[..|b| - 1];
      FoldConcat(m, a, front);
      assert (a + b)[..|a + b| - 1] == a + front;
    }
  }

  /** The fold holds, under every key, the value of the last Put or else what was there before. */
  lemma {:induction false} FoldLookup(m: KvMap, es: seq<Entry>, key: Str)
    ensures PutSomewhere(es, key) ==>
              exists j :: IsLastPut(es, key, j) && key in Fold(m, es) && Fold(m, es)[key] == PutIn(es[j]).value.value
    ensures !PutSomewhere(es, key) ==>
              (key in Fold(m, es) <==> key in m) && (key in m ==> Fold(m, es)[key] == m[key])
  {
    hide PutIn;
    if es != [] {
      var n := |es| - 1;
      var front := es[..n];
      FoldLookup(m, front, key);
      if Puts(es[n], key) {
        assert IsLastPut(es, key, n);
      } else if PutSomewhere(front, key) {
        var j :|
          IsLastPut(front, key, j) && key in Fold(m, front) && Fold(m, front)[key] == PutIn(front[j]).value.value;
        assert IsLastPut(es, key, j);
      } else {
        PutSomewhereSnoc(es, key);
      }
    }
  }

  /** A fold is no larger than the map it starts from plus one key per entry. */
  lemma {:induction false} FoldSize(m: KvMap, es: seq<Entry>)
    ensures |Fold(m, es)| <= |m| + |es|
  {
    if es != [] {
      var front := Fold(m, es[..|es| - 1]);
      FoldSize(m, es[..|es| - 1]);
      match PutIn(es[|es| - 1]) {
        case Some(p) => assert Assign(front, p).Keys == front.Keys + {p.key};
        case None =>
      }
    }
  }

  /** Entries that put nothing leave the fold alone. */
  lemma {:induction false} FoldSilent(m: KvMap, es: seq<Entry>)
    requires forall i | 0 <= i < |es| :: PutIn(es[i]).None?
    ensures Fold(m, es) == m
  {
    if es != [] {
      FoldSilent(m, es[..|es| - 1]);
    }
  }

  /** Entries build an empty map exactly when none of them puts anything. */
  lemma FoldEmptyIff(es: seq<Entry>)
    ensures Fold(map[], es) == map[] <==> forall i | 0 <= i < |es| :: PutIn(es[i]).None?
  {
    hide PutIn;
    if i :| 0 <= i < |es| && PutIn(es[i]).Some? {
      var key := PutIn(es[i]).value.key;
      assert Puts(es[i], key);
      FoldLookup(map[], es, key);
      assert key in Fold(map[], es);
    } else {
      FoldSilent(map[], es);
    }
  }

  function Lookup(m: KvMap, key: Str): Option<Str> {
    if key in m then Some(m[key]) else None
  }

  lemma SameLookups(m: KvMap, n: KvMap)
    requires forall key :: Lookup(m, key) == Lookup(n, key)
    ensures m == n
  {
    assert forall key :: key in m <==> Lookup(m, key).Some?;
    assert forall key :: key in n <==> Lookup(n, key).Some?;
  }

  lemma SameFoldAt(m: KvMap, n: KvMap, es: seq<Entry>, key: Str)
    ensures Lookup(Fold(m, es), key) == Lookup(Fold(n, es), key)
            <==> Lookup(m, key) == Lookup(n, key) || PutSomewhere(es, key)
  {
    hide PutIn, Fold;
    FoldLookup(m, es, key);
    FoldLookup(n, es, key);
    LastPutUnique(es, key);
  }

  /** Two maps become equal under the same entries exactly when every key on which they differ
      is put by one of them. */
  lemma SameFoldIff(m: KvMap, n: KvMap, es: seq<Entry>)
    ensures Fold(m, es) == Fold(n, es)
            <==> forall key | Lookup(m, key) != Lookup(n, key) :: PutSomewhere(es, key)
  {
    hide Fold, PutSomewhere;
    forall key
      ensures Lookup(Fold(m, es), key) == Lookup(Fold(n, es), key)
              <==> Lookup(m, key) == Lookup(n, key) || PutSomewhere(es, key)
    {
      SameFoldAt(m, n, es, key);
    }
    if forall key :: Lookup(Fold(m, es), key) == Lookup(Fold(n, es), key) {
      SameLookups(Fold(m, es), Fold(n, es));
    }
  }

  /** Folding only a suffix gives the whole fold exactly when every key put before is put again in it. */
  lemma {:induction false} SuffixFoldIff(before: seq<Entry>, after: seq<Entry>)
    ensures Fold(map[], after) == Fold(map[], before + after)
            <==> forall key | PutSomewhere(before, key) :: PutSomewhere(after, key)
  {
    hide PutIn, Fold, PutSomewhere;
    var none: KvMap := map[];
    var m := Fold(none, before);
    FoldConcat(none, before, after);
    SameFoldIff(none, m, after);
    forall key ensures PutSomewhere(before, key) <==> Lookup(none, key) != Lookup(m, key) {
      FoldLookup(none, before, key);
    }
  }

  lemma LastPutUnique(es: seq<Entry>, key: Str)
    ensures forall i, j | IsLastPut(es, key, i) && IsLastPut(es, key, j) :: i == j
  {
  }
}
