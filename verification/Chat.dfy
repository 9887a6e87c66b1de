/** What several parts share about a source's chat: its persisted cursor, and which posting a match is of. */
module Chat {
  /** A match of a chat message is of that message; any other stands for itself. */
  datatype Posting = OfMessage(source: int, messageId: int) | OfMatch(id: int)

  function CursorOf(cursors: map<int, int>, source: int): int {
    if source in cursors then cursors[source] else 0
  }

  function Advance(cursors: map<int, int>, source: int, id: int): map<int, int> {
    if source !in cursors || id > cursors[source] then cursors[source := id] else cursors
  }

  ghost predicate NeverBack(cursors: map<int, int>, cursors': map<int, int>) {
    forall source :: source in cursors ==> source in cursors' && cursors'[source] >= cursors[source]
  }
}
