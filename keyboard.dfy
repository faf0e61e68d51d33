/** The key-to-action switch of useKeyboardShortcuts. */
module KeyboardShortcuts {
  import opened Music

  /** What the keydown event was aimed at; typing in a text field must not trigger shortcuts. */
  datatype EventTarget = InputElement | TextAreaElement | OtherElement

  /** The callbacks the hook is given. */
  datatype Action = PlayPause | Next | Previous | VolumeUp | VolumeDown | Mute

  /** `event.key` that triggers each action. */
  function KeyFor(a: Action): string
  {
    match a
    case PlayPause => " "
    case Next => "ArrowRight"
    case Previous => "ArrowLeft"
    case VolumeUp => "ArrowUp"
    case VolumeDown => "ArrowDown"
    case Mute => "m"
  }

  /** `handleKeyPress`: the one action a keydown triggers, if any; `preventDefault` is
      called exactly when an action is returned. */
  function HandleKey(target: EventTarget, key: string): (r: Option<Action>)
    ensures target != OtherElement ==> r == None
    ensures r.Some? ==> key == KeyFor(r.value)
  {
    if !target.OtherElement? then None
    else if key == " " then Some(PlayPause)
    else if key == "ArrowRight" then Some(Next)
    else if key == "ArrowLeft" then Some(Previous)
    else if key == "ArrowUp" then Some(VolumeUp)
    else if key == "ArrowDown" then Some(VolumeDown)
    else if key == "m" then Some(Mute)
    else None
  }

  /** Outside text fields every action is reached by its key and by no other key;
      any other key, including "M", triggers nothing. */
  lemma KeyMapExact(key: string, a: Action)
    ensures HandleKey(OtherElement, KeyFor(a)) == Some(a)
    ensures HandleKey(OtherElement, key) == Some(a) <==> key == KeyFor(a)
    ensures HandleKey(OtherElement, "M") == None
  {
    match a
    case PlayPause =>
    case Next =>
    case Previous =>
    case VolumeUp =>
    case VolumeDown =>
    case Mute =>
  }
}
