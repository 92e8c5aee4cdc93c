/** Severity levels shared by the argument parser and the leveled logger.
    A level is an unsigned 8-bit number; the named levels are LEVEL_0 (nothing
    ranked is emitted) up to LEVEL_6 (everything is). */
module Loglevel {

  /** The uint8 the loggers store. */
  type Level = x: int | 0 <= x < 256

  const LEVEL_0: Level := 0
  const LEVEL_1: Level := 1
  const LEVEL_2: Level := 2
  const LEVEL_3: Level := 3
  const LEVEL_4: Level := 4
  const LEVEL_5: Level := 5
  const LEVEL_6: Level := 6
}
