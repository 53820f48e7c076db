/** Models.kt: the connection states a serial port reports to its listeners. */
module Models {
  datatype SerialPortState = Disconnected | Connecting | Connected | Error
}
