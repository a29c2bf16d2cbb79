/** The global keyboard listener: each key-down event is reduced to the hand
    that would normally type the key, and that label is sent to the pet. */
module Keyboard {

  datatype Option<T> = None | Some(value: T)

  /** The two event kinds the keyboard hook reports. */
  datatype EventType = KeyDown | KeyUp

  /** The label sent to the pet: which hand's typing clip to play. */
  datatype Hand = Left | Right

  /** The fifteen key names that count as left-hand keys. */
  const LeftHandKeys: set<string> :=
    {"q", "w", "e", "r", "t", "a", "s", "d", "f", "g", "z", "x", "c", "v", "b"}

  /** The same keys as characters, in both cases: an independent statement
      of which names are left-hand names. */
  const LeftLower: string := "qwertasdfgzxcvb"
  const LeftUpper: string := "QWERTASDFGZXCVB"

  /** Lower-casing of one character (the ASCII letters A to Z). */
  function LowerChar(c: char): (r: char)
    ensures 'A' <= c <= 'Z' ==> 'a' <= r <= 'z' && r as int - c as int == 'a' as int - 'A' as int
    ensures !('A' <= c <= 'Z') ==> r == c
  {
    if 'A' <= c <= 'Z' then (c as int - 'A' as int + 'a' as int) as char else c
  }

  /** Lower-casing of a key name, character by character. */
  function Lower(s: string): (r: string)
    ensures |r| == |s|
    ensures forall i :: 0 <= i < |s| ==> r[i] == LowerChar(s[i])
  {
    if s == [] then [] else [LowerChar(s[0])] + Lower(s[1..])
  }

  /** Lower-casing an already lower-cased name changes nothing. */
  lemma {:induction false} LowerIdempotent(s: string)
    ensures Lower(Lower(s)) == Lower(s)
  {
    if s != [] {
      LowerIdempotent(s[1..]);
      assert Lower(s)[1..] == Lower(s[1..]);
    }
  }

  /** The hook's callback: a key-down yields the hand of its lower-cased
      name, every other event yields nothing. */
  function OnKeyEvent(kind: EventType, name: string): (r: Option<Hand>)
    ensures r.None? <==> kind.KeyUp?
  {
    if kind.KeyDown? then
      if Lower(name) in LeftHandKeys then Some(Left) else Some(Right)
    else
      None
  }

  /** A name is a left-hand name when it is one of the fifteen letters,
      written in either case. */
  predicate IsLeftHandName(name: string) {
    |name| == 1 && (name[0] in LeftLower || name[0] in LeftUpper)
  }

  /** Membership in the key set, restated on the single character. */
  lemma InLeftHandKeys(s: string)
    ensures s in LeftHandKeys <==> |s| == 1 && s[0] in LeftLower
  {
    if |s| == 1 && s[0] in LeftLower {
      assert s == [s[0]];
    }
  }

  /** A character lower-cases into the left-hand letters exactly when it is
      one of them in either case. */
  lemma LowerCharLeft(c: char)
    ensures LowerChar(c) in LeftLower <==> c in LeftLower || c in LeftUpper
  {
    if 'A' <= c <= 'Z' {
      assert c !in LeftLower;
    } else {
      assert c !in LeftUpper;
    }
  }

  /** A key-down is classified left exactly for the left-hand names, and
      right exactly for every other name. */
  lemma OnKeyEventLeftIff(name: string)
    ensures OnKeyEvent(KeyDown, name) == Some(Left) <==> IsLeftHandName(name)
    ensures OnKeyEvent(KeyDown, name) == Some(Right) <==> !IsLeftHandName(name)
  {
    InLeftHandKeys(Lower(name));
    if |name| == 1 {
      LowerCharLeft(name[0]);
    }
  }

  /** Classification ignores case: a name and its lower-cased form are
      classified alike. */
  lemma OnKeyEventCaseInsensitive(kind: EventType, name: string)
    ensures OnKeyEvent(kind, Lower(name)) == OnKeyEvent(kind, name)
  {
    LowerIdempotent(name);
  }

  /** Concrete keys: `a` and `Q` are left-hand keys, `j` and `space` are not. */
  lemma OnKeyEventExamples()
    ensures OnKeyEvent(KeyDown, "a") == Some(Left)
    ensures OnKeyEvent(KeyDown, "Q") == Some(Left)
    ensures OnKeyEvent(KeyDown, "j") == Some(Right)
    ensures OnKeyEvent(KeyDown, "space") == Some(Right)
    ensures OnKeyEvent(KeyUp, "a") == None
  {
    OnKeyEventLeftIff("a");
    OnKeyEventLeftIff("Q");
    OnKeyEventLeftIff("j");
    OnKeyEventLeftIff("space");
  }
}
