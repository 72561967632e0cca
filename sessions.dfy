/**
 * The router's view of the per-user conversation memory: the three calls it
 * makes (append, remove, change the system message), each on a map from user
 * to that user's session.
 *
 * A session records the system-message override and every entry appended
 * since the user's memory was last removed. How many of those entries the
 * memory keeps and how it renders them for the model is not part of this
 * model: the collaborator that answers a chat receives the whole session.
 */
module Sessions {
  import opened Wrappers

  type UserId = string

  const UserRole := "user"
  const AssistantRole := "assistant"

  datatype Entry = Entry(role: string, content: string)

  datatype Session = Session(system: Option<string>, entries: seq<Entry>)

  /** The session of `user`; a user without memory has no override and no entries. */
  function SessionOf(memory: map<UserId, Session>, user: UserId): Session {
    if user in memory then memory[user] else Session(None, [])
  }

  /** `memory.append(user, role, content)`. */
  function AppendEntry(memory: map<UserId, Session>, user: UserId, e: Entry): (m: map<UserId, Session>)
    ensures m.Keys == memory.Keys + {user}
    ensures SessionOf(m, user).system == SessionOf(memory, user).system
    ensures SessionOf(m, user).entries == SessionOf(memory, user).entries + [e]
    ensures forall v :: v in memory && v != user ==> m[v] == memory[v]
  {
    var s := SessionOf(memory, user);
    memory[user := s.(entries := s.entries + [e])]
  }

  /** `memory.change_system_message(user, text)`: sets the override, keeps the entries. */
  function ChangeSystemMessage(memory: map<UserId, Session>, user: UserId, text: string): (m: map<UserId, Session>)
    ensures m.Keys == memory.Keys + {user}
    ensures SessionOf(m, user).system == Some(text)
    ensures SessionOf(m, user).entries == SessionOf(memory, user).entries
    ensures forall v :: v in memory && v != user ==> m[v] == memory[v]
  {
    memory[user := SessionOf(memory, user).(system := Some(text))]
  }

  /** `memory.remove(user)`: forgets the entries and the override; no error when there is nothing. */
  function RemoveSession(memory: map<UserId, Session>, user: UserId): (m: map<UserId, Session>)
    ensures m.Keys == memory.Keys - {user}
    ensures SessionOf(m, user) == Session(None, [])
    ensures forall v :: v in m ==> m[v] == memory[v]
  {
    memory - {user}
  }
}
