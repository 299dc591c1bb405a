/** What the screens do to the world outside them: requests to the remote
    API, writes to the device's key-value storage, navigation, alerts and the
    transient error banner. The world's answers are given to the screens as
    `Reply` values; the effects are recorded, in order, in a trace. */
module Effects {
  import opened Js

  datatype HttpMethod = Get | Post | Put

  /** The body of a review submitted for a location. */
  datatype ReviewBody = ReviewBody(
    rating: int,
    username: Option<string>,
    userId: Option<string>,
    comment: Option<string>)

  /** What a request carries besides its method and path. */
  datatype Payload =
    | NoBody
    | Form(fields: JsonObject)
    | BearerToken(token: string)
    | Review(review: ReviewBody)

  /** A value written to storage: a plain string or a serialized object. */
  datatype Stored = Plain(text: string) | Object(fields: JsonObject)

  datatype Effect =
    | Request(verb: HttpMethod, path: string, payload: Payload)
    | SetItem(key: string, value: Stored)
    | Navigate(screen: string)
    | Alert(message: string)
    | Banner(message: string)

  /** The outcome of an awaited request: it threw, with the server's error
      message if the response carried one, or it resolved with a body. */
  datatype Reply<+T> = Fail(error: Option<string>) | Ok(body: T)

  type Store = map<string, Stored>

  const TokenKey := "userToken"
  const ProfileKey := "userProfile"
  const MainApp := "MainApp"

  /** The storage after one effect: only `SetItem` writes. */
  function Step(store: Store, e: Effect): (r: Store)
    ensures e.SetItem? ==> r == store[e.key := e.value]
    ensures !e.SetItem? ==> r == store
  {
    match e
    case SetItem(k, v) => store[k := v]
    case _ => store
  }

  /** The storage after a sequence of effects, applied in order. */
  function Apply(store: Store, es: seq<Effect>): Store
    decreases |es|
  {
    if es == [] then store else Step(Apply(store, es[..|es| - 1]), es[|es| - 1])
  }

  /** Storage is only ever written, never cleared: every key present before
      a run of effects is present after it. */
  lemma {:induction false} ApplyNeverRemoves(store: Store, es: seq<Effect>, k: string)
    requires k in store
    ensures k in Apply(store, es)
    decreases |es|
  {
    if es != [] {
      ApplyNeverRemoves(store, es[..|es| - 1], k);
    }
  }

  /** Applying one more effect is one more step. */
  lemma ApplySnoc(store: Store, es: seq<Effect>, e: Effect)
    ensures Apply(store, es + [e]) == Step(Apply(store, es), e)
  {
    assert (es + [e])[..|es|] == es;
  }

  /** Applying two runs of effects one after the other is applying their concatenation. */
  lemma {:induction false} ApplyConcat(store: Store, a: seq<Effect>, b: seq<Effect>)
    ensures Apply(store, a + b) == Apply(Apply(store, a), b)
    decreases |b|
  {
    if b != [] {
      assert (a + b)[..|a + b| - 1] == a + b[..|b| - 1];
      ApplyConcat(store, a, b[..|b| - 1]);
    } else {
      assert a + b == a;
    }
  }

  /** A run of effects with no `SetItem` leaves storage alone. */
  lemma {:induction false} ApplyWithoutWrites(store: Store, es: seq<Effect>)
    requires forall i :: 0 <= i < |es| ==> !es[i].SetItem?
    ensures Apply(store, es) == store
    decreases |es|
  {
    if es != [] {
      ApplyWithoutWrites(store, es[..|es| - 1]);
    }
  }

  /** A key no effect writes keeps its old value, or stays absent. */
  lemma {:induction false} ApplyKeepsUnwritten(store: Store, es: seq<Effect>, k: string)
    requires !Writes(es, k)
    ensures k in Apply(store, es) <==> k in store
    ensures k in store ==> Apply(store, es)[k] == store[k]
    decreases |es|
  {
    if es != [] {
      ApplyKeepsUnwritten(store, es[..|es| - 1], k);
    }
  }

  /** The last write to `k` is what storage holds under `k`. */
  lemma {:induction false} ApplyLastWrite(store: Store, es: seq<Effect>, i: nat)
    requires i < |es| && es[i].SetItem?
    requires forall j :: i < j < |es| ==> !(es[j].SetItem? && es[j].key == es[i].key)
    ensures es[i].key in Apply(store, es) && Apply(store, es)[es[i].key] == es[i].value
    decreases |es|
  {
    if i < |es| - 1 {
      ApplyLastWrite(store, es[..|es| - 1], i);
    }
  }

  predicate SendsRequest(es: seq<Effect>) {
    exists i :: 0 <= i < |es| && es[i].Request?
  }

  predicate Writes(es: seq<Effect>, k: string) {
    exists i :: 0 <= i < |es| && es[i].SetItem? && es[i].key == k
  }

  predicate NavigatesTo(es: seq<Effect>, screen: string) {
    Navigate(screen) in es
  }

  /** The message shown for a failed request: the server's, or the fallback. */
  function FailureText(error: Option<string>, fallback: string): (r: string)
    ensures Truthy(error) ==> r == error.value
    ensures !Truthy(error) ==> r == fallback
  {
    OrElse(error, fallback)
  }

  /** The device: its persistent key-value storage and everything the app
      has done so far, in order. */
  class Device {
    var store: Store
    var trace: seq<Effect>

    constructor (initial: Store)
      ensures store == initial && trace == []
    {
      store := initial;
      trace := [];
    }

    method Emit(e: Effect)
      modifies this
      ensures trace == old(trace) + [e]
      ensures store == Step(old(store), e)
    {
      trace := trace + [e];
      store := Step(store, e);
    }
  }
}
