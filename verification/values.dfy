/** The slice of Python's object model that the settings decorator and its
    consumers observe: a few value kinds, truthiness, sequence indexing with
    negative positions, the `in` operator, and exceptions as a Result.
 */
module Values {

  datatype Option<+T> = None | Some(value: T)

  /** The exceptions the modelled code raises or lets propagate. */
  datatype Exception =
    | TypeError(message: string)
    | IndexError(message: string)
    | AttributeError(name: string)
    | ValueError(message: string)
    | AssertionError(message: string)
    | SmtpError(stage: string)

  /** A Python computation either returns a value or raises. */
  datatype Result<+T> = Success(value: T) | Failure(error: Exception) {
    predicate IsFailure() {
      Failure?
    }

    function PropagateFailure<U>(): Result<U>
      requires Failure?
    {
      Failure(error)
    }

    function Extract(): T
      requires Success?
    {
      value
    }
  }

  /** A Python value. Lists and tuples are both `VSeq`; objects the code only
      passes around or inspects by attribute are `VObj`. Equality is
      structural, not Python's loose `==` across types. */
  datatype Value =
    | VNone
    | VBool(b: bool)
    | VInt(i: int)
    | VStr(s: string)
    | VSeq(items: seq<Value>)
    | VObj(obj: Object)

  /** The objects with attributes the consumers read: an HTTP request (its
      `method`, `META` dictionary and, when authentication middleware ran,
      its `user`), a view function (`__module__`, `__name__`), and any other
      instance, known only by identity. */
  datatype Object =
    | Request(verb: string, meta: map<string, Value>, user: Option<User>)
    | ViewFunction(moduleName: string, name: string)
    | Instance(id: nat)

  datatype User = User(isActive: bool, isStaff: bool)

  /** Python truthiness of a value (`bool(v)`). */
  predicate Truthy(v: Value) {
    match v
    case VNone => false
    case VBool(b) => b
    case VInt(i) => i != 0
    case VStr(s) => s != ""
    case VSeq(items) => items != []
    case VObj(_) => true
  }

  /** Python subscription `s[i]`: a negative position counts from the end,
      anything outside `-len(s) .. len(s) - 1` raises IndexError. */
  function PyIndex<T>(s: seq<T>, i: int): (r: Result<T>)
    ensures r.Success? <==> -|s| <= i < |s|
    ensures r.Success? ==> exists k :: 0 <= k < |s| && (k == i || k == i + |s|) && r.value == s[k]
    ensures r.Failure? ==> r.error.IndexError?
  {
    if 0 <= i < |s| then Success(s[i])
    else if -|s| <= i < 0 then Success(s[i + |s|])
    else Failure(IndexError("tuple index out of range"))
  }

  /** `needle` occurs as a contiguous piece of `hay`. */
  predicate IsSubstring(needle: string, hay: string)
    decreases |hay|
  {
    needle <= hay || (hay != [] && IsSubstring(needle, hay[1..]))
  }

  /** Python's `x in container` for the containers the code meets: membership
      in a list or tuple, substring search in a string (which refuses a
      non-string left operand), and TypeError for anything not iterable. */
  function Contains(container: Value, x: Value): (r: Result<bool>)
    ensures container.VSeq? ==> r == Success(x in container.items)
    ensures container.VStr? && x.VStr? ==> r == Success(IsSubstring(x.s, container.s))
    ensures r.Failure? <==> !container.VSeq? && !(container.VStr? && x.VStr?)
  {
    match container
    case VSeq(items) => Success(x in items)
    case VStr(s) =>
      if x.VStr? then Success(IsSubstring(x.s, s))
      else Failure(TypeError("'in <string>' requires string as left operand"))
    case _ => Failure(TypeError("argument is not iterable"))
  }

  /** `request.META.get('REMOTE_ADDR')`: None when the key is missing;
      a value without a `META` attribute raises AttributeError. */
  function RemoteAddr(request: Value): (r: Result<Value>)
    ensures r.Success? <==> request.VObj? && request.obj.Request?
    ensures r.Success? && "REMOTE_ADDR" in request.obj.meta ==> r.value == request.obj.meta["REMOTE_ADDR"]
    ensures r.Success? && "REMOTE_ADDR" !in request.obj.meta ==> r.value == VNone
  {
    if request.VObj? && request.obj.Request? then
      var meta := request.obj.meta;
      Success(if "REMOTE_ADDR" in meta then meta["REMOTE_ADDR"] else VNone)
    else
      Failure(AttributeError("META"))
  }

  predicate Distinct<T(==)>(s: seq<T>) {
    forall i, j :: 0 <= i < j < |s| ==> s[i] != s[j]
  }

  function Min(a: int, b: int): int {
    if a <= b then a else b
  }
}
