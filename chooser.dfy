/**
 Verification of base64 encoded signatures where the public key is chosen at
 call time by a logical id. The chooser keeps a cache from key id to verifier,
 builds a verifier lazily on the first call for an id (from the id-to-key map
 and the algorithm and charset configured at that moment), and delegates the
 check to it.

 The pure functions below specify one call (`VerifyStep`) and a whole lifetime
 of calls (`Run`); the class `VerifierChooser` is the mutable object, and its
 methods are proved against those functions.
 */
module Chooser {
  import opened Signature

  const DefaultAlgorithm: string := "SHA1withRSA"
  const DefaultCharsetName: string := "UTF-8"

  /** Everything the chooser holds between calls. */
  datatype State = State(
    cache: map<string, Verifier>,
    publicKeyMap: Option<map<string, PublicKey>>,  // None until the map is injected
    algorithm: string,
    charsetName: string)

  /** What one verification call answers, and the cache it leaves behind. */
  datatype Verification = Verification(result: Result<bool, SignatureError>, cache: map<string, Verifier>)

  /** The state of a chooser that was just constructed. */
  function Initial(): State
  {
    State(map[], None, DefaultAlgorithm, DefaultCharsetName)
  }

  /**
   One call `verify(publicKeyId, message, signature)`: a cache hit delegates to
   the cached verifier; a miss looks the id up in the key map, fails with
   KeyNotFound when it is absent, and otherwise binds a new verifier, installs
   it and delegates to it.
   */
  function VerifyStep(s: State, primitive: Primitive, publicKeyId: string, message: string, signature: string)
    : (t: Verification)
    requires publicKeyId in s.cache || s.publicKeyMap.Some?
    // existing entries are neither removed nor replaced
    ensures forall id :: id in s.cache ==> id in t.cache && t.cache[id] == s.cache[id]
    // at most one entry is added, under the requested id
    ensures t.cache.Keys <= s.cache.Keys + {publicKeyId}
    // the chooser's own error happens exactly for an id known neither to the cache nor to the map
    ensures t.result == Failure(KeyNotFound(publicKeyId))
        <==> publicKeyId !in s.cache && publicKeyId !in s.publicKeyMap.value
    // that error leaves the cache as it was
    ensures t.result == Failure(KeyNotFound(publicKeyId)) ==> t.cache == s.cache
    // otherwise the id is cached (even when the delegated check fails) and the answer is its verifier's
    ensures t.result != Failure(KeyNotFound(publicKeyId)) ==>
      publicKeyId in t.cache && t.result == t.cache[publicKeyId].Verify(primitive, message, signature)
    // a verifier built by this call is bound to the current key and configuration
    ensures publicKeyId !in s.cache && publicKeyId in t.cache ==>
      publicKeyId in s.publicKeyMap.value &&
      t.cache[publicKeyId] == Verifier(s.publicKeyMap.value[publicKeyId], s.algorithm, s.charsetName)
  {
    if publicKeyId in s.cache then
      Verification(s.cache[publicKeyId].Verify(primitive, message, signature), s.cache)
    else if publicKeyId !in s.publicKeyMap.value then
      Verification(Failure(KeyNotFound(publicKeyId)), s.cache)
    else
      var verifier := Verifier(s.publicKeyMap.value[publicKeyId], s.algorithm, s.charsetName);
      Verification(verifier.Verify(primitive, message, signature), s.cache[publicKeyId := verifier])
  }

  /** A second identical call gives the same answer and does not touch the cache. */
  lemma VerifyStepIdempotent(s: State, primitive: Primitive, publicKeyId: string, message: string, signature: string)
    requires publicKeyId in s.cache || s.publicKeyMap.Some?
    ensures var first := VerifyStep(s, primitive, publicKeyId, message, signature);
            var second := VerifyStep(s.(cache := first.cache), primitive, publicKeyId, message, signature);
            second.result == first.result && second.cache == first.cache
  {
  }

  /**
   Every cached verifier is the one the current configuration would build: it
   holds the map's key for its id and the configured algorithm and charset.
   */
  ghost predicate Consistent(s: State)
  {
    s.publicKeyMap.Some? &&
    forall id :: id in s.cache ==>
      id in s.publicKeyMap.value &&
      s.cache[id] == Verifier(s.publicKeyMap.value[id], s.algorithm, s.charsetName)
  }

  /** What a chooser without a cache would answer: bind a verifier on every call. */
  function Uncached(keys: map<string, PublicKey>, algorithm: string, charsetName: string, primitive: Primitive,
                    publicKeyId: string, message: string, signature: string): Result<bool, SignatureError>
  {
    if publicKeyId in keys then
      Verifier(keys[publicKeyId], algorithm, charsetName).Verify(primitive, message, signature)
    else
      Failure(KeyNotFound(publicKeyId))
  }

  /** While the configuration is consistent with the cache, the cache never changes an answer. */
  lemma VerifyStepMatchesUncached(s: State, primitive: Primitive, publicKeyId: string, message: string, signature: string)
    requires Consistent(s)
    ensures var t := VerifyStep(s, primitive, publicKeyId, message, signature);
            t.result == Uncached(s.publicKeyMap.value, s.algorithm, s.charsetName, primitive, publicKeyId, message, signature) &&
            Consistent(s.(cache := t.cache))
  {
  }

  /** The public operations of a chooser, as a caller may issue them over its lifetime. */
  datatype Event =
    | SetPublicKeyMapCall(keys: map<string, PublicKey>)
    | SetAlgorithmCall(algorithm: string)
    | SetCharsetNameCall(charsetName: string)
    | VerifyCall(publicKeyId: string, message: string, signature: string)

  /** What an operation returns: the setters return nothing. */
  datatype Reply = Done | Answer(result: Result<bool, SignatureError>)

  /** The state after a sequence of operations and the reply to each. */
  datatype Trace = Trace(state: State, replies: seq<Reply>)

  /** One operation. The setters overwrite their field and nothing else. */
  function Apply(s: State, primitive: Primitive, e: Event): (t: (State, Reply))
    requires s.publicKeyMap.Some?
    ensures t.0.publicKeyMap.Some?
    ensures e.VerifyCall? <==> t.1.Answer?
  {
    match e
    case SetPublicKeyMapCall(keys) => (s.(publicKeyMap := Some(keys)), Done)
    case SetAlgorithmCall(algorithm) => (s.(algorithm := algorithm), Done)
    case SetCharsetNameCall(charsetName) => (s.(charsetName := charsetName), Done)
    case VerifyCall(publicKeyId, message, signature) =>
      var v := VerifyStep(s, primitive, publicKeyId, message, signature);
      (s.(cache := v.cache), Answer(v.result))
  }

  /** A sequence of operations, applied in order, starting once the key map is set. */
  function Run(s: State, primitive: Primitive, events: seq<Event>): (t: Trace)
    requires s.publicKeyMap.Some?
    ensures t.state.publicKeyMap.Some?
    ensures |t.replies| == |events|
    ensures forall i :: 0 <= i < |events| ==> (events[i].VerifyCall? <==> t.replies[i].Answer?)
    decreases |events|
  {
    if events == [] then Trace(s, [])
    else
      var before := Run(s, primitive, events[..|events| - 1]);
      var (state, reply) := Apply(before.state, primitive, events[|events| - 1]);
      Trace(state, before.replies + [reply])
  }

  /** The ids requested by the verification calls among `events`. */
  function RequestedIds(events: seq<Event>): set<string>
  {
    set i | 0 <= i < |events| && events[i].VerifyCall? :: events[i].publicKeyId
  }

  /**
   The cache only grows: over any sequence of operations, setters included, no
   entry is ever removed or replaced, and the only new keys are requested ids.
   */
  lemma {:induction false} RunKeepsCachedEntries(s: State, primitive: Primitive, events: seq<Event>)
    requires s.publicKeyMap.Some?
    ensures var t := Run(s, primitive, events);
            (forall id :: id in s.cache ==> id in t.state.cache && t.state.cache[id] == s.cache[id]) &&
            t.state.cache.Keys <= s.cache.Keys + RequestedIds(events)
    decreases |events|
  {
    if events != [] {
      var n := |events| - 1;
      var prefix := events[..n];
      RunKeepsCachedEntries(s, primitive, prefix);
      assert RequestedIds(prefix) <= RequestedIds(events) by {
        forall id | id in RequestedIds(prefix) ensures id in RequestedIds(events) {
          var i :| 0 <= i < |prefix| && prefix[i].VerifyCall? && prefix[i].publicKeyId == id;
          assert events[i] == prefix[i];
        }
      }
      if events[n].VerifyCall? {
        assert events[n].publicKeyId in RequestedIds(events);
      }
    }
  }

  /**
   A cached id keeps answering with the verifier it was first bound to, whatever
   the setters change afterwards: rotating a key under the same id has no effect.
   */
  lemma CachedAnswerSurvivesReconfiguration(s: State, primitive: Primitive, events: seq<Event>,
                                            publicKeyId: string, message: string, signature: string)
    requires s.publicKeyMap.Some?
    requires publicKeyId in s.cache
    ensures VerifyStep(Run(s, primitive, events).state, primitive, publicKeyId, message, signature).result
         == s.cache[publicKeyId].Verify(primitive, message, signature)
  {
    RunKeepsCachedEntries(s, primitive, events);
  }

  /**
   The state just before the `i`-th operation holds no entry for `publicKeyId`,
   and `verifier` is the one that operation builds from the key map and the
   configuration of that moment.
   */
  ghost predicate BoundBy(s: State, primitive: Primitive, events: seq<Event>, i: int, publicKeyId: string, verifier: Verifier)
    requires s.publicKeyMap.Some?
    requires 0 <= i < |events|
  {
    var before := Run(s, primitive, events[..i]).state;
    events[i].VerifyCall? && events[i].publicKeyId == publicKeyId &&
    publicKeyId !in before.cache &&
    publicKeyId in before.publicKeyMap.value &&
    verifier == Verifier(before.publicKeyMap.value[publicKeyId], before.algorithm, before.charsetName)
  }

  /**
   Every entry added over a sequence of operations was bound by one verification
   call, to the key and configuration current at that call.
   */
  lemma {:induction false} RunBindsAtCreation(s: State, primitive: Primitive, events: seq<Event>)
    requires s.publicKeyMap.Some?
    ensures var t := Run(s, primitive, events);
            forall id :: id in t.state.cache && id !in s.cache ==>
              exists i :: 0 <= i < |events| && BoundBy(s, primitive, events, i, id, t.state.cache[id])
    decreases |events|
  {
    if events != [] {
      var n := |events| - 1;
      var prefix := events[..n];
      var t := Run(s, primitive, events);
      var before := Run(s, primitive, prefix);
      RunBindsAtCreation(s, primitive, prefix);
      forall id | id in t.state.cache && id !in s.cache
        ensures exists i :: 0 <= i < |events| && BoundBy(s, primitive, events, i, id, t.state.cache[id])
      {
        if id in before.state.cache {
          var i :| 0 <= i < |prefix| && BoundBy(s, primitive, prefix, i, id, before.state.cache[id]);
          assert prefix[..i] == events[..i];
          assert t.state.cache[id] == before.state.cache[id];
          assert BoundBy(s, primitive, events, i, id, t.state.cache[id]);
        } else {
          assert events[..n] == prefix;
          assert BoundBy(s, primitive, events, n, id, t.state.cache[id]);
        }
      }
    }
  }

  /**
   Running two sequences one after the other is running their concatenation:
   the second starts from the state the first leaves, and the replies line up.
   */
  lemma {:induction false} RunAppend(s: State, primitive: Primitive, a: seq<Event>, b: seq<Event>)
    requires s.publicKeyMap.Some?
    ensures var first := Run(s, primitive, a);
            var second := Run(first.state, primitive, b);
            Run(s, primitive, a + b) == Trace(second.state, first.replies + second.replies)
    decreases |b|
  {
    if b != [] {
      var n := |b| - 1;
      assert (a + b)[..|a + b| - 1] == a + b[..n];
      assert (a + b)[|a + b| - 1] == b[n];
      RunAppend(s, primitive, a, b[..n]);
    } else {
      assert a + b == a;
    }
  }

  /**
   At most one verifier is ever built per id: no two operations of one sequence
   both bind a verifier for the same id.
   */
  lemma AtMostOneBinding(s: State, primitive: Primitive, events: seq<Event>, i: int, j: int,
                         publicKeyId: string, v: Verifier, w: Verifier)
    requires s.publicKeyMap.Some?
    requires 0 <= i < j < |events|
    ensures !(BoundBy(s, primitive, events, i, publicKeyId, v) && BoundBy(s, primitive, events, j, publicKeyId, w))
  {
    if BoundBy(s, primitive, events, i, publicKeyId, v) {
      var bound := Run(s, primitive, events[..i + 1]);
      assert events[..i + 1][..i] == events[..i];
      assert publicKeyId in bound.state.cache;
      assert events[..j] == events[..i + 1] + events[i + 1..j];
      RunAppend(s, primitive, events[..i + 1], events[i + 1..j]);
      RunKeepsCachedEntries(bound.state, primitive, events[i + 1..j]);
    }
  }

  /**
   With a consistent start and only verification calls (no reconfiguration),
   every reply is what a chooser without a cache would answer; in particular an
   unknown id always fails, and identical calls always get identical answers.
   */
  lemma {:induction false} RunMatchesUncached(s: State, primitive: Primitive, events: seq<Event>)
    requires Consistent(s)
    requires forall i :: 0 <= i < |events| ==> events[i].VerifyCall?
    ensures var t := Run(s, primitive, events);
            Consistent(t.state) &&
            t.state.publicKeyMap == s.publicKeyMap && t.state.algorithm == s.algorithm &&
            t.state.charsetName == s.charsetName &&
            forall i :: 0 <= i < |events| ==>
              t.replies[i] == Answer(Uncached(s.publicKeyMap.value, s.algorithm, s.charsetName, primitive,
                                              events[i].publicKeyId, events[i].message, events[i].signature))
    decreases |events|
  {
    if events != [] {
      var n := |events| - 1;
      var prefix := events[..n];
      RunMatchesUncached(s, primitive, prefix);
      var before := Run(s, primitive, prefix);
      var e := events[n];
      VerifyStepMatchesUncached(before.state, primitive, e.publicKeyId, e.message, e.signature);
      assert forall i :: 0 <= i < n ==> events[i] == prefix[i];
    }
  }

  /** The chooser object: the cache it fills and the configuration it is given. */
  class VerifierChooser {
    var cache: map<string, Verifier>
    var publicKeyMap: Option<map<string, PublicKey>>
    var algorithm: string
    var charsetName: string

    /** The abstract value of this object. */
    ghost function Value(): State
      reads this
    {
      State(cache, publicKeyMap, algorithm, charsetName)
    }

    /** A new chooser: empty cache, no key map yet, SHA1withRSA over UTF-8. */
    constructor ()
      ensures Value() == Initial()
      ensures cache == map[] && publicKeyMap == None
      ensures algorithm == "SHA1withRSA" && charsetName == "UTF-8"
    {
      cache := map[];
      publicKeyMap := None;
      algorithm := DefaultAlgorithm;
      charsetName := DefaultCharsetName;
    }

    /** Injects the id-to-key map; verifiers already cached keep their keys. */
    method SetPublicKeyMap(keys: map<string, PublicKey>)
      modifies this`publicKeyMap
      ensures publicKeyMap == Some(keys)
    {
      publicKeyMap := Some(keys);
    }

    /** Sets the algorithm used for verifiers built from now on. */
    method SetAlgorithm(algorithm: string)
      modifies this`algorithm
      ensures this.algorithm == algorithm
    {
      this.algorithm := algorithm;
    }

    /** Sets the charset used for verifiers built from now on. */
    method SetCharsetName(charsetName: string)
      modifies this`charsetName
      ensures this.charsetName == charsetName
    {
      this.charsetName := charsetName;
    }

    /**
     Verifies `signature` over `message` with the key registered under
     `publicKeyId`, building and caching its verifier on the first call.
     */
    method Verify(primitive: Primitive, publicKeyId: string, message: string, signature: string)
      returns (r: Result<bool, SignatureError>)
      requires publicKeyId in cache || publicKeyMap.Some?
      modifies this`cache
      ensures Verification(r, cache) == VerifyStep(old(Value()), primitive, publicKeyId, message, signature)
      ensures publicKeyId in old(cache) ==>
        cache == old(cache) && r == cache[publicKeyId].Verify(primitive, message, signature)
      ensures publicKeyId !in old(cache) && publicKeyId !in publicKeyMap.value ==>
        cache == old(cache) && r == Failure(KeyNotFound(publicKeyId))
      ensures publicKeyId !in old(cache) && publicKeyId in publicKeyMap.value ==>
        cache == old(cache)[publicKeyId := Verifier(publicKeyMap.value[publicKeyId], algorithm, charsetName)] &&
        r == cache[publicKeyId].Verify(primitive, message, signature)
    {
      if publicKeyId in cache {
        r := cache[publicKeyId].Verify(primitive, message, signature);
        return;
      }
      var keys := publicKeyMap.value;
      if publicKeyId !in keys {
        r := Failure(KeyNotFound(publicKeyId));
        return;
      }
      var verifier := Verifier(keys[publicKeyId], algorithm, charsetName);
      cache := cache[publicKeyId := verifier];
      r := verifier.Verify(primitive, message, signature);
    }
  }

  /**
   A caller's view: once an id has been verified, replacing the key map does not
   change which key answers for it.
   */
  method RotationIsIgnored(primitive: Primitive, oldKey: PublicKey, newKey: PublicKey, message: string, signature: string)
    returns (first: Result<bool, SignatureError>, second: Result<bool, SignatureError>)
    ensures first == second == Verifier(oldKey, DefaultAlgorithm, DefaultCharsetName).Verify(primitive, message, signature)
  {
    var chooser := new VerifierChooser();
    chooser.SetPublicKeyMap(map["k1" := oldKey]);
    first := chooser.Verify(primitive, "k1", message, signature);
    chooser.SetPublicKeyMap(map["k1" := newKey]);
    second := chooser.Verify(primitive, "k1", message, signature);
  }
}
