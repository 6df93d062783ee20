/**
 The plain values shared by the server's components: task priorities, command
 types, time stamps and tasks (include/types.h, include/priority.h).
 */
module Types {

  datatype Option<+T> = None | Some(value: T)

  datatype TaskPriority = Low | Normal | High

  /** The enumeration value of a priority. */
  function Rank(p: TaskPriority): int {
    match p
    case Low => 0
    case Normal => 1
    case High => 2
  }

  datatype CommandType = Unknown | Upload | Download | Delete | List | Signup | Login | Quit

  datatype Timespec = Timespec(sec: int, nsec: int)

  datatype Task = Task(
    kind: CommandType,
    client: nat,
    username: string,
    password: string,
    path: string,
    tmpfile: string,
    size: nat,
    priority: TaskPriority,
    enqueueTime: Timespec)

  /** The task that `task_create` fills with empty strings before a line is parsed. */
  function EmptyTask(client: nat, now: Timespec): Task {
    Task(Unknown, client, "", "", "", "", 0, Normal, now)
  }
}
