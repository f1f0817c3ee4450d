/** Error chains and their classification. A chain ends in an API status error or in
    some other error; wrapping with a message and classifying both add a link. */
module Errors {

  datatype Reason =
    | Conflict | ServerTimeout | Timeout | TooManyRequests | ServiceUnavailable | InternalError
    | NotFound | Forbidden | Invalid | BadRequest | AlreadyExists | OtherReason

  datatype Class = Transient | Permanent | ConflictClass | UnknownClass

  /** What a wrapping message says. */
  datatype Context = ToGet | ToCreate | ToApply | ToDelete | ToReconcile(step: nat) | ToAddFinalizer | ToRemoveFinalizer

  /** What a classified error names: a sub-reconciler, or the kind of object it writes. */
  datatype Subject = SubReconciler(step: nat) | ObjectOf(step: nat)

  datatype Error =
    | Api(reason: Reason)
    | Plain(message: string)
    | Wrapped(context: Context, inner: Error)
    | Reconcile(errorClass: Class, resource: string, kind: Subject, inner: Error)

  /** An error as the API client returns it: no classification in its chain yet. */
  predicate IsRaw(e: Error) {
    match e
    case Api(_) => true
    case Plain(_) => true
    case Wrapped(_, inner) => IsRaw(inner)
    case Reconcile(_, _, _, _) => false
  }

  type RawError = e: Error | IsRaw(e) witness Plain("")

  /** `errors.As(err, &recErr)`: the outermost classified link of the chain. */
  function AsReconcile(e: Error): (r: Error)
    ensures r.Reconcile? || IsRaw(e)
  {
    match e
    case Wrapped(_, inner) => AsReconcile(inner)
    case _ => e
  }

  predicate IsClassified(e: Error) {
    AsReconcile(e).Reconcile?
  }

  /** `apierrors.ReasonForError`: the status at the end of the chain, if there is one. */
  function ReasonOf(e: Error): Reason {
    match e
    case Api(r) => r
    case Plain(_) => OtherReason
    case Wrapped(_, inner) => ReasonOf(inner)
    case Reconcile(_, _, _, inner) => ReasonOf(inner)
  }

  predicate IsConflict(e: Error) {
    ReasonOf(e) == Conflict
  }

  predicate IsNotFound(e: Error) {
    ReasonOf(e) == NotFound
  }

  function Classify(e: Error): Class {
    if IsClassified(e) then AsReconcile(e).errorClass
    else
      var r := ReasonOf(e);
      if r == Conflict then ConflictClass
      else if r == ServerTimeout || r == Timeout then Transient
      else if r == TooManyRequests then Transient
      else if r == ServiceUnavailable then Transient
      else if r == InternalError then Transient
      else if r == NotFound then Permanent
      else if r == Forbidden then Permanent
      else if r == Invalid then Permanent
      else if r == BadRequest then Permanent
      else UnknownClass
  }

  function ClassifyOrWrap(e: Error, resource: string, kind: Subject): (r: Error)
    ensures r.Reconcile?
  {
    if IsClassified(e) then AsReconcile(e)
    else
      match Classify(e)
      case ConflictClass => Reconcile(ConflictClass, resource, kind, e)
      case Permanent => Reconcile(Permanent, resource, kind, e)
      case Transient => Reconcile(Transient, resource, kind, e)
      case UnknownClass => Reconcile(Transient, resource, kind, e)
  }

  /** e behind any number of wrapping messages, innermost first. */
  function WrapAll(e: Error, contexts: seq<Context>): Error {
    if contexts == [] then e else Wrapped(contexts[|contexts| - 1], WrapAll(e, contexts[..|contexts| - 1]))
  }

  /** The class an API reason gets once it has been classified. */
  function ClassOfReason(r: Reason): Class {
    match r
    case Conflict => ConflictClass
    case NotFound => Permanent
    case Forbidden => Permanent
    case Invalid => Permanent
    case BadRequest => Permanent
    case _ => Transient
  }

  /** Wrapping, to any depth, keeps the class, the reason and the classified link. */
  lemma {:induction false} WrappingKeepsClass(e: Error, contexts: seq<Context>)
    ensures Classify(WrapAll(e, contexts)) == Classify(e)
    ensures ReasonOf(WrapAll(e, contexts)) == ReasonOf(e)
    ensures IsClassified(WrapAll(e, contexts)) == IsClassified(e)
    ensures IsClassified(e) ==> AsReconcile(WrapAll(e, contexts)) == AsReconcile(e)
    ensures IsRaw(WrapAll(e, contexts)) == IsRaw(e)
  {
    if contexts == [] {
    } else {
      WrappingKeepsClass(e, contexts[..|contexts| - 1]);
    }
  }

  lemma {:induction false} RawIsUnclassified(e: Error)
    ensures IsClassified(e) <==> !IsRaw(e)
  {
    match e
    case Wrapped(_, inner) => RawIsUnclassified(inner);
    case _ =>
  }

  /** Classifying is idempotent whatever is wrapped around in between, and the class of a
      raw error is a function of its API reason alone: never "unknown". */
  lemma ClassifyOrWrapStable(e: Error, contexts: seq<Context>, r: string, k: Subject, r': string, k': Subject)
    ensures ClassifyOrWrap(WrapAll(ClassifyOrWrap(e, r, k), contexts), r', k') == ClassifyOrWrap(e, r, k)
    ensures Classify(WrapAll(ClassifyOrWrap(e, r, k), contexts)) == ClassifyOrWrap(e, r, k).errorClass
    ensures IsRaw(e) ==> ClassifyOrWrap(WrapAll(e, contexts), r, k).errorClass == ClassOfReason(ReasonOf(e))
    ensures IsRaw(e) ==> ClassifyOrWrap(e, r, k).errorClass != UnknownClass
  {
    WrappingKeepsClass(ClassifyOrWrap(e, r, k), contexts);
    WrappingKeepsClass(e, contexts);
    RawIsUnclassified(e);
  }

  /** Classification itself leaves errors that are no API status "unknown"; only wrapping
      turns them transient. */
  lemma UnknownBecomesTransient(e: Error, r: string, k: Subject)
    requires IsRaw(e)
    ensures Classify(e) == UnknownClass <==> ReasonOf(e) in {AlreadyExists, OtherReason}
    ensures ClassifyOrWrap(e, r, k).errorClass == Transient <==> Classify(e) in {Transient, UnknownClass}
  {
    RawIsUnclassified(e);
  }
}
