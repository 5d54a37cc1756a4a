/** invoke-shared.ts: `defineInvokeEventa` derives the five channel names of a
    request/response/stream exchange from one base tag. */
module InvokeShared {
  import opened Identifiers
  import opened Values
  import Suffixes

  /** The five roles of an invoke bundle (`InvokeEventType` without `SendEvent`'s payload). */
  datatype Role = SendEvent | SendEventError | ReceiveEvent | ReceiveEventError | ReceiveEventStreamEnd

  function Suffix(r: Role): string {
    match r
    case SendEvent => "-send"
    case SendEventError => "-send-error"
    case ReceiveEvent => "-receive"
    case ReceiveEventError => "-receive-error"
    case ReceiveEventStreamEnd => "-receive-stream-end"
  }

  /** The derived name of one role; `defineEventa` (not part of this model) is taken to
      return a descriptor whose `id` is this name. */
  function Id(base: string, r: Role): string {
    base + Suffix(r)
  }

  /** The value `defineInvokeEventa` returns: the `id` of each of the five descriptors. */
  datatype InvokeEventa = InvokeEventa(
    sendEvent: string,
    sendEventError: string,
    receiveEvent: string,
    receiveEventError: string,
    receiveEventStreamEnd: string)
  {
    function Get(r: Role): string {
      match r
      case SendEvent => sendEvent
      case SendEventError => sendEventError
      case ReceiveEvent => receiveEvent
      case ReceiveEventError => receiveEventError
      case ReceiveEventStreamEnd => receiveEventStreamEnd
    }
  }

  /** `if (!tag) { tag = nanoid() }`: a missing (`None`) or empty tag is replaced by a generated
      one; `picks` are the random draws `nanoid()` consumes. */
  function BaseTag(tag: Option<string>, picks: seq<nat>): (base: string)
    ensures tag.Some? && tag.value != "" ==> base == tag.value
    ensures tag.None? || tag.value == "" ==> IsNanoid(base)
  {
    if tag.None? || tag.value == "" then Nanoid(picks) else tag.value
  }

  /** invoke-shared.ts:27-49. */
  function DefineInvokeEventa(tag: Option<string>, picks: seq<nat>): (e: InvokeEventa)
    ensures forall r :: e.Get(r) == Id(BaseTag(tag, picks), r)
  {
    var base := BaseTag(tag, picks);
    InvokeEventa(Id(base, SendEvent), Id(base, SendEventError), Id(base, ReceiveEvent),
                 Id(base, ReceiveEventError), Id(base, ReceiveEventStreamEnd))
  }

  /** No role's suffix ends another role's suffix. */
  lemma SuffixFree(r1: Role, r2: Role)
    requires r1 != r2
    ensures !Suffixes.EndsWith(Suffix(r2), Suffix(r1))
  {
    match r1 {
      case SendEvent =>
        match r2 {
          case SendEventError => assert Suffix(r2)[6] != Suffix(r1)[0];
          case ReceiveEvent => assert Suffix(r2)[3] != Suffix(r1)[0];
          case ReceiveEventError => assert Suffix(r2)[9] != Suffix(r1)[0];
          case ReceiveEventStreamEnd => assert Suffix(r2)[14] != Suffix(r1)[0];
          case _ =>
        }
      case SendEventError =>
        match r2 {
          case ReceiveEventError => assert Suffix(r2)[3] != Suffix(r1)[0];
          case ReceiveEventStreamEnd => assert Suffix(r2)[10] != Suffix(r1)[2];
          case _ =>
        }
      case ReceiveEvent =>
        match r2 {
          case SendEventError => assert Suffix(r2)[3] != Suffix(r1)[0];
          case ReceiveEventError => assert Suffix(r2)[6] != Suffix(r1)[0];
          case ReceiveEventStreamEnd => assert Suffix(r2)[11] != Suffix(r1)[0];
          case _ =>
        }
      case ReceiveEventError =>
        match r2 {
          case ReceiveEventStreamEnd => assert Suffix(r2)[5] != Suffix(r1)[0];
          case _ =>
        }
      case ReceiveEventStreamEnd =>
    }
  }

  /** Derivation is injective in base and role together: a derived name determines the tag it
      came from and which of the five roles it plays, so distinct base tags never share a
      channel and no two roles of one bundle share one. */
  lemma {:induction false} IdInjective(t1: string, r1: Role, t2: string, r2: Role)
    requires Id(t1, r1) == Id(t2, r2)
    ensures t1 == t2 && r1 == r2
  {
    Suffixes.SplitEqual(t1, Suffix(r1), t2, Suffix(r2));
    if r1 != r2 {
      SuffixFree(r1, r2);
      SuffixFree(r2, r1);
      assert false;
    }
  }

  /** The five ids derived from one tag are pairwise distinct. */
  lemma BundleDistinct(tag: Option<string>, picks: seq<nat>, r1: Role, r2: Role)
    requires r1 != r2
    ensures DefineInvokeEventa(tag, picks).Get(r1) != DefineInvokeEventa(tag, picks).Get(r2)
  {
    var base := BaseTag(tag, picks);
    if Id(base, r1) == Id(base, r2) {
      IdInjective(base, r1, base, r2);
    }
  }

  /** For a non-empty tag the bundle does not depend on the random draws: both sides of a
      connection that share only the tag string agree on all five ids. */
  lemma Deterministic(t: string, picks1: seq<nat>, picks2: seq<nat>)
    requires t != ""
    ensures DefineInvokeEventa(Some(t), picks1) == DefineInvokeEventa(Some(t), picks2)
    ensures DefineInvokeEventa(Some(t), picks1).sendEvent == t + "-send"
  {
  }

  /** For a fixed role, distinct base tags give distinct ids. */
  lemma DistinctBases(t1: string, t2: string, picks: seq<nat>, r: Role)
    requires t1 != "" && t2 != "" && t1 != t2
    ensures DefineInvokeEventa(Some(t1), picks).Get(r) != DefineInvokeEventa(Some(t2), picks).Get(r)
  {
    if Id(t1, r) == Id(t2, r) {
      IdInjective(t1, r, t2, r);
    }
  }

  /** A missing or empty tag yields a bundle whose base is a 16-symbol alphanumeric id. */
  lemma FallbackShape(tag: Option<string>, picks: seq<nat>)
    requires tag.None? || tag == Some("")
    ensures var e := DefineInvokeEventa(tag, picks);
      |e.sendEvent| == 16 + 5 && IsNanoid(e.sendEvent[..16]) && e.sendEvent[16..] == "-send"
  {
    var e := DefineInvokeEventa(tag, picks);
    assert e.sendEvent == Nanoid(picks) + "-send";
  }
}
