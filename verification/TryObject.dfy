/** Try as a tagged union that is updated in place: a payload lives exactly while the tag says so. */
module TryObject {
  import opened TryModel

  datatype InnerType = KValue | KException | KNothing

  class TryCell {
    var inner_type_: InnerType
    var value_: int
    var exception_: Exn
    ghost var constructed: nat    // payloads placed in the union so far
    ghost var destroyed: nat      // and payload destructors run

    function Contents(): Try<int>
      reads this
    {
      match inner_type_
      case KValue => Value(value_)
      case KException => Exception(exception_)
      case KNothing => Nothing
    }

    /** No payload is leaked and none is destroyed twice. */
    ghost predicate Valid()
      reads this
    {
      constructed == destroyed + if inner_type_.KNothing? then 0 else 1
    }

    constructor (t: Try<int>)
      ensures Valid() && Contents() == t
    {
      inner_type_ := match t case Value(_) => KValue case Exception(_) => KException case Nothing => KNothing;
      value_ := if t.Value? then t.value else 0;
      exception_ := if t.Exception? then t.error else LogicError;
      constructed := if t.Nothing? then 0 else 1;
      destroyed := 0;
    }

    method Destroy()
      requires Valid()
      modifies this
      ensures Valid() && Contents() == Nothing && constructed == old(constructed)
    {
      if !inner_type_.KNothing? {
        destroyed := destroyed + 1;
      }
      inner_type_ := KNothing;
    }

    /** operator=(Try &&): the payload is moved or copied over, and the tag of the source stays what it was. */
    method MoveAssign(other: TryCell)
      requires Valid() && other.Valid()
      modifies this
      ensures Valid() && other.Valid() && Contents() == old(other.Contents())
      ensures other != this ==> other.Contents() == old(other.Contents())
      ensures other == this ==> constructed == old(constructed) && destroyed == old(destroyed)
    {
      if other == this {
        return;
      }
      Destroy();
      inner_type_ := other.inner_type_;
      match inner_type_ {
        case KValue => value_ := other.value_;
        case KException => exception_ := other.exception_;
        case KNothing =>
      }
      if !inner_type_.KNothing? {
        constructed := constructed + 1;
      }
    }

    /** SetException, and assignment from an exception_ptr: nothing happens if that very exception is held already. */
    method SetException(e: Exn)
      requires Valid()
      modifies this
      ensures Valid() && Contents() == Exception(e)
      ensures old(Contents()) == Exception(e) ==> constructed == old(constructed)
    {
      if inner_type_.KException? && exception_ == e {
        return;
      }
      Destroy();
      inner_type_ := KException;
      exception_ := e;
      constructed := constructed + 1;
    }

    /** Value(): the value, the held exception rethrown, or a logic_error when there is nothing. */
    method GetValue() returns (r: Try<int>)
      ensures r == (if Contents().Nothing? then Exception(LogicError) else Contents()) && r.Available()
    {
      match inner_type_
      case KValue => r := Value(value_);
      case KException => r := Exception(exception_);
      case KNothing => r := Exception(LogicError);
    }
  }

  /** What calling a function comes to. */
  datatype Called<+T> = Returned(v: T) | Threw(e: Exn)

  /** Value() as a call: it returns the value, or throws what is held. */
  function Asked<T>(t: Try<T>): Called<T> {
    match t
    case Value(v) => Returned(v)
    case Exception(e) => Threw(e)
    case Nothing => Threw(LogicError)
  }

  /** MakeTryCall never throws and never yields an empty Try, and asking the Try for its value does what the call itself
      would have done: the same value returned, or the same exception thrown. */
  function MakeTryCall<A, T>(f: A -> Called<T>, a: A): (r: Try<T>)
    ensures r.Available() && Asked(r) == f(a)
  {
    match f(a)
    case Returned(v) => Value(v)
    case Threw(e) => Exception(e)
  }
}
