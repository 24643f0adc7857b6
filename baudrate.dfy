/** The bit rates a channel can be opened at; the codes are the vendor's. */
module Baudrates {

  datatype Baudrate =
    | Baud1m | Baud800k | Baud500k | Baud250k | Baud125k | Baud100k | Baud95k
    | Baud83k | Baud50k | Baud47k | Baud33k | Baud20k | Baud10k | Baud5k
}
