/** The value types of the quiz game (types.ts). */
module Types {

  /** A nullable value, as the `T | null` state hooks hold it. */
  datatype Option<+T> = None | Some(value: T)

  /** A multiple-choice question. The source types `options` as a plain
      string array and only documents `correctAnswerIndex` as "0-3": neither
      is checked when questions arrive, so both stay unconstrained here and
      `WellFormed` states the documented shape. */
  datatype Question = Question(
    id: int,
    text: string,
    options: seq<string>,
    correctAnswerIndex: int,
    explanation: string)

  /** The documented range of the answer index, and the condition under which
      `options[correctAnswerIndex]` names an actual option. */
  predicate WellFormed(q: Question) {
    0 <= q.correctAnswerIndex <= 3 && q.correctAnswerIndex < |q.options|
  }

  /** The four seeds a player can choose from. */
  datatype FlowerType = Rose | Sunflower | Tulip | Daisy

  const AllFlowerTypes: set<FlowerType> := {Rose, Sunflower, Tulip, Daisy}

  /** The union type has exactly the four members above. */
  lemma FlowerTypesAreFour()
    ensures |AllFlowerTypes| == 4
    ensures forall f: FlowerType :: f in AllFlowerTypes
  {
    forall f: FlowerType ensures f in AllFlowerTypes {
      match f
      case Rose =>
      case Sunflower =>
      case Tulip =>
      case Daisy =>
    }
  }

  /** The four phases of a quiz session. */
  datatype GameState = Setup | Loading | Playing | Completed

  const AllGameStates: set<GameState> := {Setup, Loading, Playing, Completed}

  lemma GameStatesAreFour()
    ensures |AllGameStates| == 4
    ensures forall g: GameState :: g in AllGameStates
  {
    forall g: GameState ensures g in AllGameStates {
      match g
      case Setup =>
      case Loading =>
      case Playing =>
      case Completed =>
    }
  }

  /** A flower in the garden: an id, its kind and a position in percent of the
      garden's width and height. (`type` is a Dafny keyword, hence
      `flowerType`.) */
  datatype PlantedFlower = PlantedFlower(id: int, flowerType: FlowerType, x: real, y: real)

  /** Positions are kept away from the garden's edges. */
  predicate InGarden(f: PlantedFlower) {
    10.0 <= f.x < 90.0 && 10.0 <= f.y < 90.0
  }

  /** `Math.random() * 80 + 10` for a draw `r` in [0, 1). */
  function Coordinate(r: real): (c: real)
    requires 0.0 <= r < 1.0
    ensures 10.0 <= c < 90.0
  {
    r * 80.0 + 10.0
  }
}
