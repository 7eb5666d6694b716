/** The records the application exchanges between its components (types.ts). */
module Types {
  import opened Wrappers

  /** Who wrote a chat message. */
  datatype Sender = User | Bot

  /**
   * One entry of the chat log. `isLoading` is optional in the source; an
   * absent flag is falsy and is modelled as `false`.
   */
  datatype Message = Message(id: string, text: string, sender: Sender, isLoading: bool)

  /** The mood scale: the source's `1 | 2 | 3 | 4 | 5`. */
  type MoodLevel = l: int | 1 <= l <= 5 witness 3

  /** One mood diary entry; `timestamp` is milliseconds since the epoch. */
  datatype MoodEntry = MoodEntry(id: string, level: MoodLevel, timestamp: int)

  datatype ExerciseKind = Breathing | Meditation

  /**
   * Phase durations of a breathing exercise, in whole seconds (every listed
   * timing is a whole number). `hold2` is optional.
   */
  datatype Timings = Timings(inhale: nat, hold: nat, exhale: nat, hold2: Option<nat>)

  /** A relaxation exercise of the catalogue. */
  datatype Exercise = Exercise(
    id: string,
    title: string,
    description: string,
    emoji: string,
    kind: ExerciseKind,
    duration: string,
    timings: Option<Timings>,
    steps: Option<seq<string>>)
}
