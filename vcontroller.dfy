/** The on-screen virtual controller: the button tables, which elements
    get listeners, which gestures press and release, and the relation
    between the buttons' pressed look and the `vkey` messages sent. */
module VirtualController {
  import opened Bridge

  /** The ten button names, in the order `Object.entries(MAP)` visits them. */
  datatype Button = Up | Down | Left | Right | A | B | L | R | Start | Select

  function Name(b: Button): string {
    match b
    case Up => "up" case Down => "down" case Left => "left" case Right => "right"
    case A => "a" case B => "b" case L => "l" case R => "r"
    case Start => "start" case Select => "select"
  }

  /** `MAP`: button name to element id. */
  function ElementId(b: Button): string {
    match b
    case Up => "kUp" case Down => "kDown" case Left => "kLeft" case Right => "kRight"
    case A => "kA" case B => "kB" case L => "kL" case R => "kR"
    case Start => "kStart" case Select => "kSelect"
  }

  /** `KEY`: button name to the key identifier the sandbox sees. */
  function KeyOf(b: Button): string {
    match b
    case Up => "ArrowUp" case Down => "ArrowDown" case Left => "ArrowLeft" case Right => "ArrowRight"
    case A => "z" case B => "x" case L => "q" case R => "w"
    case Start => "Enter" case Select => "Shift"
  }

  /** The button whose element has id `id`, if any. */
  function ButtonOfElement(id: string): (r: Option<Button>)
    ensures r.Some? ==> ElementId(r.value) == id
  {
    if id == "kUp" then Some(Up) else if id == "kDown" then Some(Down)
    else if id == "kLeft" then Some(Left) else if id == "kRight" then Some(Right)
    else if id == "kA" then Some(A) else if id == "kB" then Some(B)
    else if id == "kL" then Some(L) else if id == "kR" then Some(R)
    else if id == "kStart" then Some(Start) else if id == "kSelect" then Some(Select)
    else None
  }

  /** The button whose key identifier is `key`, if any. */
  function ButtonOfKey(key: string): (r: Option<Button>)
    ensures r.Some? ==> KeyOf(r.value) == key
  {
    if key == "ArrowUp" then Some(Up) else if key == "ArrowDown" then Some(Down)
    else if key == "ArrowLeft" then Some(Left) else if key == "ArrowRight" then Some(Right)
    else if key == "z" then Some(A) else if key == "x" then Some(B)
    else if key == "q" then Some(L) else if key == "w" then Some(R)
    else if key == "Enter" then Some(Start) else if key == "Shift" then Some(Select)
    else None
  }

  /** The button whose name is `name`, if any. */
  function ButtonNamed(name: string): (r: Option<Button>)
    ensures r.Some? ==> Name(r.value) == name
  {
    if name == "up" then Some(Up) else if name == "down" then Some(Down)
    else if name == "left" then Some(Left) else if name == "right" then Some(Right)
    else if name == "a" then Some(A) else if name == "b" then Some(B)
    else if name == "l" then Some(L) else if name == "r" then Some(R)
    else if name == "start" then Some(Start) else if name == "select" then Some(Select)
    else None
  }

  /** Both tables are total over the same ten names and each is
      one-to-one: the name, the element id and the key of a button each
      determine the button. */
  lemma TablesInvertible(b: Button)
    ensures ButtonNamed(Name(b)) == Some(b)
    ensures ButtonOfElement(ElementId(b)) == Some(b)
    ensures ButtonOfKey(KeyOf(b)) == Some(b)
  {
    match b
    case Up => case Down => case Left => case Right => case A =>
    case B => case L => case R => case Start => case Select =>
  }

  lemma KeysDistinct(b1: Button, b2: Button)
    requires b1 != b2
    ensures KeyOf(b1) != KeyOf(b2) && ElementId(b1) != ElementId(b2)
  {
    TablesInvertible(b1);
    TablesInvertible(b2);
  }

  /** `bindVKey` put listeners on the element `id`: it is one of the ten
      button elements and the page has it (`present`). */
  predicate Bound(present: set<string>, id: string) {
    id in present && ButtonOfElement(id).Some?
  }

  /** The key the listeners of a bound element send. */
  function BoundKey(present: set<string>, id: string): (key: string)
    requires Bound(present, id)
    ensures ButtonOfKey(key) == ButtonOfElement(id)
  {
    TablesInvertible(ButtonOfElement(id).value);
    KeyOf(ButtonOfElement(id).value)
  }

  /** The nine events each button listens to. */
  datatype Gesture =
    | PointerDown | TouchStart | MouseDown
    | PointerUp | PointerCancel | TouchEnd | TouchCancel | MouseUp | MouseLeave

  /** The down family sends `down: true`; the rest, cancellation and
      leaving included, send `down: false`. */
  predicate IsPress(g: Gesture) {
    g.PointerDown? || g.TouchStart? || g.MouseDown?
  }

  /** The `down` of the last `vkey` message for `key` in `posted`, or false
      if there is none. */
  function LastVKeyDown(posted: seq<Message>, key: string): bool {
    if posted == [] then false
    else
      match posted[|posted| - 1]
      case VKey(k, d) => if k == key then d else LastVKeyDown(posted[..|posted| - 1], key)
      case _ => LastVKeyDown(posted[..|posted| - 1], key)
  }

  /** Only bound elements ever show the pressed look, and each shows it
      exactly when the last `vkey` sent for its key said `down`. */
  ghost predicate Mirrors(present: set<string>, pressed: set<string>, posted: seq<Message>) {
    (forall id :: id in pressed ==> Bound(present, id))
    && forall id :: Bound(present, id) ==>
      (id in pressed <==> LastVKeyDown(posted, BoundKey(present, id)))
  }

  lemma LastVKeyDownAppend(posted: seq<Message>, m: Message, key: string)
    ensures LastVKeyDown(posted + [m], key) ==
      if m.VKey? && m.key == key then m.down else LastVKeyDown(posted, key)
  {
    assert (posted + [m])[..|posted|] == posted;
  }

  /** Sending anything but a `vkey` keeps the pressed look in step. */
  lemma MirrorsAfterOther(present: set<string>, pressed: set<string>, posted: seq<Message>, m: Message)
    requires Mirrors(present, pressed, posted) && !m.VKey?
    ensures Mirrors(present, pressed, posted + [m])
  {
    forall id | Bound(present, id)
      ensures LastVKeyDown(posted + [m], BoundKey(present, id)) == LastVKeyDown(posted, BoundKey(present, id))
    {
      LastVKeyDownAppend(posted, m, BoundKey(present, id));
    }
  }

  /** `send(down)` on the bound element `id`: the message goes out and the
      pressed look of `id` is set to `down`; this keeps every button in
      step, the others included. */
  lemma MirrorsAfterSend(present: set<string>, pressed: set<string>, posted: seq<Message>, id: string, down: bool)
    requires Mirrors(present, pressed, posted) && Bound(present, id)
    ensures Mirrors(present, if down then pressed + {id} else pressed - {id},
                    posted + [VKey(BoundKey(present, id), down)])
  {
    var m := VKey(BoundKey(present, id), down);
    var pressed' := if down then pressed + {id} else pressed - {id};
    forall other | Bound(present, other)
      ensures other in pressed' <==> LastVKeyDown(posted + [m], BoundKey(present, other))
    {
      LastVKeyDownAppend(posted, m, BoundKey(present, other));
      if other != id {
        KeysDistinct(ButtonOfElement(other).value, ButtonOfElement(id).value);
      }
    }
  }
}
