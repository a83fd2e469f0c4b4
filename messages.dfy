/**
 * The message record exchanged between pyRTOS tasks.
 * A message is an immutable value; `H` is the type of a task handle, so that the
 * record can be defined before the task control block that refers to it.
 */
module Messages {
  import opened Wrappers

  /** Message type 0 asks the receiving task to terminate; 1-127 are reserved, 128 and up are free. */
  const QUIT: int := 0

  /**
   * Where a message comes from or goes to: a task handle, or anything else, which is
   * compared with task names; a task's name is a string or None, so None is a name target too.
   */
  datatype Endpoint<H> = Handle(task: H) | Name(name: Option<string>)

  /** `Message(type, source, target, message=None)`; `payload` is the optional `message` argument. */
  datatype Message<H> = Message(kind: int, source: Endpoint<H>, target: Endpoint<H>, payload: Option<string>)
}
