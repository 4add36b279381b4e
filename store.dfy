/**
 * The persistence the orchestrator relies on: the status column of the
 * `videos` table, keyed by video id, and the `prompts` table, to which rows
 * are only ever appended.
 */
module Store {
  const Pending: string := "pending"
  const Processing: string := "processing"
  const Completed: string := "completed"
  const Error: string := "error"

  /** One row of the `prompts` table as `add_prompt` inserts it. */
  datatype PromptRow = PromptRow(videoId: int, text: string, complexity: int, aspectRatio: string, variation: int)

  /**
   * `UPDATE videos SET status = ? WHERE id = ?`: the video with that id gets
   * the new status; when no video has that id nothing changes.
   */
  function UpdateStatus(m: map<int, string>, id: int, s: string): (r: map<int, string>)
    ensures r.Keys == m.Keys
    ensures id in m ==> r[id] == s
    ensures forall k :: k in m && k != id ==> r[k] == m[k]
  {
    if id in m then m[id := s] else m
  }

  /** The ids of the videos whose status is `s`. */
  function IdsWith(m: map<int, string>, s: string): set<int> {
    set k | k in m && m[k] == s
  }

  /** Setting a status twice in a row is setting it once. */
  lemma UpdateStatusAgain(m: map<int, string>, id: int, s: string)
    ensures UpdateStatus(UpdateStatus(m, id, s), id, s) == UpdateStatus(m, id, s)
  {
  }

  /** The database, reduced to the video statuses and the prompt rows. */
  class VideoStore {
    var status: map<int, string>
    var rows: seq<PromptRow>

    constructor(initial: map<int, string>, stored: seq<PromptRow>)
      ensures status == initial && rows == stored
    {
      status := initial;
      rows := stored;
    }

    /** `update_video_status` */
    method UpdateVideoStatus(id: int, s: string)
      modifies this
      ensures status == UpdateStatus(old(status), id, s)
      ensures rows == old(rows)
    {
      status := UpdateStatus(status, id, s);
    }

    /** `add_prompt`: the row is appended; the videos are untouched. */
    method AddPrompt(row: PromptRow)
      modifies this
      ensures rows == old(rows) + [row]
      ensures status == old(status)
    {
      rows := rows + [row];
    }

    /** The number of videos whose status is `s`. */
    function CountWith(s: string): (r: nat)
      reads this
      ensures r <= |status.Keys|
    {
      assert IdsWith(status, s) <= status.Keys;
      SubsetSize(IdsWith(status, s), status.Keys);
      |IdsWith(status, s)|
    }
  }

  /** A non-empty set has an element. */
  lemma NonEmptyHasElement(s: set<int>)
    requires s != {}
    ensures exists x :: x in s
  {
    if forall x :: x !in s {
      assert false;
    }
  }

  /** A subset is no larger than the set it is taken from. */
  lemma {:induction false} SubsetSize<T>(a: set<T>, b: set<T>)
    requires a <= b
    ensures |a| <= |b|
    decreases |b|
  {
    if a != {} {
      var x :| x in a;
      SubsetSize(a - {x}, b - {x});
    }
  }
}
