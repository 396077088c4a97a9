// Values exchanged by the module: what is sent, to whom, and what a resend
// timer remembers about a message.

module Messages {

  datatype Option<+T> = None | Some(value: T)

  datatype Destination = Destination(serviceIdentifier: nat, endpoint: nat)

  // `content` stands for everything of the protobuf message beside the
  // transaction code of its header.
  datatype Message = Message(transactionCode: nat, content: string)

  datatype ParkedMessage = ParkedMessage(transactionCode: nat, destination: Destination, message: Message)
}
