/**
 * The hardware as the sensor hub sees it: an abstract I2C bus oracle. Which
 * optional Python libraries import, whether `smbus2.SMBus(n)` can open a bus,
 * and what every transaction answers are constants of the oracle; the answer
 * may depend on everything issued before, so a multiplexer's selected channel,
 * a sensor that stops answering or a write that fails once are all covered.
 * Every transaction the core issues is appended to `trace`.
 */
module Hardware {
  import opened Values

  /** The chips reached through Adafruit driver objects rather than raw SMBus calls. */
  datatype Chip = Bme280Chip | Ltr329Chip

  /** The properties of an Adafruit driver object that perform a bus read. */
  datatype Quantity = Temperature | RelativeHumidity | Pressure | VisiblePlusIr | InfraRed

  datatype Op =
    | WriteByte(addr: int, value: int)                    // SMBus.write_byte
    | ReadByte(addr: int)                                 // SMBus.read_byte
    | ReadByteData(addr: int, register: int)              // SMBus.read_byte_data
    | WriteByteData(addr: int, register: int, value: int) // SMBus.write_byte_data
    | ReadWordData(addr: int, register: int)              // SMBus.read_word_data
    | Attach(chip: Chip, addr: int)                       // constructing the Adafruit driver object
    | Sample(chip: Chip, addr: int, quantity: Quantity)   // reading one of its properties

  /** A transaction either raises (`OSError` from smbus2, or the library's error) or completes. */
  datatype Reply = Fail(message: string) | Done(value: int)

  /** Which optional imports succeed: `board`/`busio` (Blinka), the two Adafruit drivers, `smbus2`. */
  datatype Libraries = Libraries(blinka: bool, adafruitBme280: bool, adafruitLtr329: bool, smbus2: bool)

  /** The bus oracle's answer function: the history so far and the next transaction. */
  type Answer = (seq<Op>, Op) -> Reply

  class I2cBus {
    const libs: Libraries
    /** Whether `smbus2.SMBus(n)` opens for the given bus-number value. */
    const opens: Value -> bool
    const answer: Answer
    /** Every transaction issued so far, in order. */
    var trace: seq<Op>

    constructor (libs: Libraries, opens: Value -> bool, answer: Answer)
      ensures this.libs == libs && this.opens == opens && this.answer == answer
      ensures trace == []
    {
      this.libs := libs;
      this.opens := opens;
      this.answer := answer;
      trace := [];
    }

    /** `smbus2.SMBus(n)` succeeds: the module imports and the device node opens. */
    predicate CanOpen(n: Value)
    {
      libs.smbus2 && opens(n)
    }

    /** Issues one transaction and returns the oracle's answer to it. */
    method Transact(op: Op) returns (r: Reply)
      modifies this
      ensures trace == old(trace) + [op]
      ensures r == answer(old(trace), op)
    {
      r := answer(trace, op);
      trace := trace + [op];
    }
  }
}
