/**
 * The shared constants of the locomotion code: the four movement keys,
 * the list of direction keys, and the two animation states a controller
 * switches between.
 */
module Utils {

  const W: string := "w"
  const A: string := "a"
  const S: string := "s"
  const D: string := "d"

  /** The keys that count as "a direction is pressed", in source order. */
  const Directions: seq<string> := [W, A, S, D]

  /** The two animation states; `Name` is the clip name used as a map key. */
  datatype Action = Idle | Walking {
    function Name(): string {
      match this
      case Idle => "Idle"
      case Walking => "Walking"
    }
  }

  /** Some key of `Directions` is held down. */
  predicate DirectionPressed(keys: set<string>) {
    exists i :: 0 <= i < |Directions| && Directions[i] in keys
  }

  lemma DirectionPressedIsAnyOfWasd(keys: set<string>)
    ensures DirectionPressed(keys) <==> (W in keys || A in keys || S in keys || D in keys)
  {
    if W in keys { assert Directions[0] in keys; }
    if A in keys { assert Directions[1] in keys; }
    if S in keys { assert Directions[2] in keys; }
    if D in keys { assert Directions[3] in keys; }
  }

  /** The exported constants: four distinct single-letter keys and two distinct clip names. */
  lemma ConstantsAreDistinct()
    ensures Directions == ["w", "a", "s", "d"]
    ensures |{W, A, S, D}| == 4
    ensures Idle.Name() != Walking.Name()
  {
    assert W != A && W != S && W != D && A != S && A != D && S != D by {
      assert W[0] == 'w' && A[0] == 'a' && S[0] == 's' && D[0] == 'd';
    }
    assert Idle.Name()[0] == 'I' && Walking.Name()[0] == 'W';
  }
}
