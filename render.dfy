/**
 * How the pages' conditional children render. A child written `{guard && <element/>}` is
 * JavaScript's `&&`: it yields the guard itself when the guard is falsy and the element
 * otherwise. React then draws nothing for `null`, `undefined` and booleans, and draws numbers
 * and strings as text, so a guard that is the number 0 puts a stray "0" on the page.
 */
module Jsx {
  import opened Text

  /** The colour schemes of the theme (`text-primary`, `text-success`, ...). */
  datatype Tone = PrimaryTone | SuccessTone | AccentTone | MutedTone | DestructiveTone

  /** The JavaScript values the pages' guards evaluate to; numbers here are whole. */
  datatype JsValue = Undefined | Null | Bool(b: bool) | Num(n: int) | Str(s: string)

  /** JavaScript truthiness: `undefined`, `null`, `false`, `0` and `""` are falsy. */
  predicate Truthy(v: JsValue) {
    match v
    case Undefined => false
    case Null => false
    case Bool(b) => b
    case Num(n) => n != 0
    case Str(s) => s != []
  }

  /** `a && b`: the left operand when it is falsy, the right one otherwise. */
  function And(a: JsValue, b: JsValue): (r: JsValue)
    ensures Truthy(r) <==> Truthy(a) && Truthy(b)
    ensures !Truthy(a) ==> r == a
  {
    if Truthy(a) then b else a
  }

  /** What React draws for one child: nothing, a text node, or an element. */
  datatype Child<+E> = Nothing | Chars(text: string) | Node(node: E)

  /** A value in child position: numbers and strings become text, everything else nothing. */
  function Render<E>(v: JsValue): (c: Child<E>)
    ensures !c.Node?
    ensures c.Chars? <==> v.Num? || v.Str?
  {
    match v
    case Num(n) => Chars(IntToString(n))
    case Str(s) => Chars(s)
    case _ => Nothing
  }

  /** `{guard && element}` */
  function Guarded<E>(guard: JsValue, element: E): (c: Child<E>)
    ensures c.Node? <==> Truthy(guard)
    ensures c.Node? ==> c.node == element
    ensures !Truthy(guard) ==> c == Render(guard)
  {
    if Truthy(guard) then Node(element) else Render(guard)
  }

  /** The child puts something on the screen: an element, or a text node that is not empty. */
  predicate Visible<E>(c: Child<E>) {
    c.Node? || (c.Chars? && c.text != [])
  }

  /**
   * A guarded child shows something exactly when its guard is truthy or is the number 0; in the
   * second case what shows is the text "0" and not the element.
   */
  lemma GuardedShows<E>(guard: JsValue, element: E)
    ensures Visible(Guarded(guard, element)) <==> Truthy(guard) || guard == Num(0)
    ensures guard == Num(0) ==> Guarded(guard, element) == Chars("0")
  {
    if guard.Num? && guard.n != 0 {
    } else if guard == Num(0) {
      assert IntToString(0) == "0";
    }
  }
}
