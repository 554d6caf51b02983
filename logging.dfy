/** The firmware's logger: six severity levels, a gate per level against
    the configured logging level, a bounded message queue that exists only
    once the logger is initialised, and a reader that tags each message with
    its level. Text formatting is done before a message reaches this model:
    a message here is the already formatted text. */
module Logging {
  import opened CTypes

  const LOG_LEVEL_VERBOSE: int := 5
  const LOG_LEVEL_DEBUG: int := 4
  const LOG_LEVEL_INFO: int := 3
  const LOG_LEVEL_WARNING: int := 2
  const LOG_LEVEL_ERROR: int := 1
  const LOG_LEVEL_FATAL: int := 0

  const LOGGING_QUEUE_LENGTH: int := 80
  const LOGGING_MESSAGE_MAX_LENGTH: int := 256

  /** `log_level_to_string`. */
  function LevelName(level: Byte): (name: string)
    ensures level == LOG_LEVEL_VERBOSE ==> name == "Verbose"
    ensures level == LOG_LEVEL_DEBUG ==> name == "Debug"
    ensures level == LOG_LEVEL_INFO ==> name == "Info"
    ensures level == LOG_LEVEL_WARNING ==> name == "Warning"
    ensures level == LOG_LEVEL_ERROR ==> name == "Error"
    ensures level == LOG_LEVEL_FATAL ==> name == "Fatal"
    ensures level > LOG_LEVEL_VERBOSE ==> name == "Unknown"
  {
    match level
    case 5 => "Verbose"
    case 4 => "Debug"
    case 3 => "Info"
    case 2 => "Warning"
    case 1 => "Error"
    case 0 => "Fatal"
    case _ => "Unknown"
  }

  /** The level a name stands for, the reverse of `LevelName`. */
  function LevelOfName(name: string): (level: Option<Byte>)
    ensures level.Some? ==> level.value <= LOG_LEVEL_VERBOSE
  {
    if name == "Verbose" then Some(5)
    else if name == "Debug" then Some(4)
    else if name == "Info" then Some(3)
    else if name == "Warning" then Some(2)
    else if name == "Error" then Some(1)
    else if name == "Fatal" then Some(0)
    else None
  }

  /** Each level has its own name, and the unknown ones share "Unknown". */
  lemma LevelNameRoundTrip(level: Byte)
    ensures level <= LOG_LEVEL_VERBOSE ==> LevelOfName(LevelName(level)) == Some(level)
    ensures level > LOG_LEVEL_VERBOSE ==> LevelOfName(LevelName(level)) == None
  {
  }

  /** The three-character tag the reader puts in front of a message. */
  function Tag(level: Byte): (tag: string)
    ensures |tag| == 3 && tag[0] == '[' && tag[2] == ']'
    // a known level is tagged with the initial of its name
    ensures level <= LOG_LEVEL_VERBOSE ==> tag[1] == LevelName(level)[0]
    ensures level > LOG_LEVEL_VERBOSE ==> tag == "[?]"
  {
    match level
    case 5 => "[V]"
    case 4 => "[D]"
    case 3 => "[I]"
    case 2 => "[W]"
    case 1 => "[E]"
    case 0 => "[F]"
    case _ => "[?]"
  }

  /** The six levels get six different tags. */
  lemma TagsDistinct(l: Byte, l': Byte)
    requires l <= LOG_LEVEL_VERBOSE && l' <= LOG_LEVEL_VERBOSE && l != l'
    ensures Tag(l) != Tag(l')
  {
    assert Tag(l)[1] != Tag(l')[1];
  }

  /** The gate of each emitting function: `verbose` needs a configured level
      above 4, `debug` above 3, `info` above 2, `warning` above 1, `error`
      above 0; `fatal` has no gate. A message is let through exactly when
      its level does not exceed the configured level. */
  function Enabled(configured: Byte, level: Byte): (open: bool)
    requires level <= LOG_LEVEL_VERBOSE
    ensures open <==> level <= configured
    ensures level == LOG_LEVEL_FATAL ==> open
  {
    match level
    case 5 => configured > 4
    case 4 => configured > 3
    case 3 => configured > 2
    case 2 => configured > 1
    case 1 => configured > 0
    case 0 => true
  }

  /** Raising the configured level never silences a message. */
  lemma EnabledMonotone(configured: Byte, configured': Byte, level: Byte)
    requires level <= LOG_LEVEL_VERBOSE && configured <= configured'
    requires Enabled(configured, level)
    ensures Enabled(configured', level)
  {
  }

  /** `struct LogMessage`. */
  datatype LogMessage = LogMessage(level: Byte, message: string)

  /** `createMessageObject`: the level as given, and the formatted text cut
      to what fits in the buffer with its terminating NUL. */
  function CreateMessage(level: Byte, text: string): (lm: LogMessage)
    ensures lm.level == level
    ensures |lm.message| < LOGGING_MESSAGE_MAX_LENGTH && |lm.message| <= |text|
    ensures lm.message == text[..|lm.message|]
    ensures |text| < LOGGING_MESSAGE_MAX_LENGTH ==> lm.message == text
    ensures |text| >= LOGGING_MESSAGE_MAX_LENGTH ==> |lm.message| == LOGGING_MESSAGE_MAX_LENGTH - 1
  {
    var n := if |text| < LOGGING_MESSAGE_MAX_LENGTH then |text| else LOGGING_MESSAGE_MAX_LENGTH - 1;
    LogMessage(level, text[..n])
  }

  /** The logger: whether the queue exists, the configured level, and the
      messages waiting in the queue, oldest first. */
  class Logger {
    var queueExists: bool
    var configuredLevel: Byte
    var queue: seq<LogMessage>

    ghost predicate Valid()
      reads this
    {
      |queue| <= LOGGING_QUEUE_LENGTH && (!queueExists ==> queue == [])
    }

    /** The state before `logger_init`: no queue. */
    constructor (configuredLevel: Byte)
      ensures Valid()
      ensures !queueExists && this.configuredLevel == configuredLevel && queue == []
    {
      queueExists := false;
      this.configuredLevel := configuredLevel;
      queue := [];
    }

    /** `logger_init`: create the (empty) queue. */
    method Init()
      requires Valid()
      modifies this`queueExists, this`queue
      ensures Valid()
      ensures queueExists && queue == []
    {
      queue := [];
      queueExists := true;
    }

    /** `verbose`, `debug`, `info`, `warning`, `error` and `fatal`, one for
        each level: build the message if the gate lets it through and queue
        it if the queue exists. A full queue drops the message. */
    method Emit(level: Byte, text: string)
      requires Valid() && level <= LOG_LEVEL_VERBOSE
      modifies this`queue
      ensures Valid()
      ensures queue == if Enabled(configuredLevel, level) && queueExists &&
                          |old(queue)| < LOGGING_QUEUE_LENGTH
                       then old(queue) + [CreateMessage(level, text)]
                       else old(queue)
    {
      if Enabled(configuredLevel, level) {
        var lm := CreateMessage(level, text);
        if queueExists && |queue| < LOGGING_QUEUE_LENGTH {
          queue := queue + [lm];
        }
      }
    }

    /** One message of `log_queue_reader_task`: take the oldest message and
        pair it with its level tag. */
    method ReadNext() returns (tag: string, message: string)
      requires Valid() && |queue| > 0
      modifies this`queue
      ensures Valid()
      ensures tag == Tag(old(queue)[0].level) && message == old(queue)[0].message
      ensures queue == old(queue)[1..]
    {
      var lm := queue[0];
      queue := queue[1..];
      tag := Tag(lm.level);
      message := lm.message;
    }
  }
}
