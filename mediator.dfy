/** The Mediator example: users of a chat room talk only through the room, which relays each
    message to every other registered user. Printing is modelled as the returned lines. */
module Mediator {

  /** The line `receive` prints. */
  function ReceiveLine(name: string, message: string): string
  {
    name + ": Received message: " + message
  }

  /** The line `User.send` prints before relaying. */
  function SendLine(name: string, message: string): string
  {
    name + ": Sending message: " + message
  }

  class User {
    const name: string
    const mediator: ChatRoom

    constructor (name: string, mediator: ChatRoom)
      ensures this.name == name && this.mediator == mediator
    {
      this.name := name;
      this.mediator := mediator;
    }

    /** `receive`: prints the message under this user's name. */
    method Receive(message: string) returns (line: string)
      ensures line == ReceiveLine(name, message)
    {
      line := ReceiveLine(name, message);
    }

    /** `send`: announces the message, then has this user's room relay it with this user as the
        sender. */
    method Send(message: string) returns (out: seq<string>)
      ensures out == [SendLine(name, message)] +
                     Deliveries(Recipients(mediator.colleagues, this), message)
    {
      var relayed := mediator.Send(message, this);
      out := [SendLine(name, message)] + relayed;
    }
  }

  /** The registered users other than `sender` (compared by identity), in registration order. */
  function Recipients(colleagues: seq<User>, sender: User): (r: seq<User>)
    ensures |r| <= |colleagues|
  {
    if colleagues == [] then []
    else if colleagues[0] != sender then [colleagues[0]] + Recipients(colleagues[1..], sender)
    else Recipients(colleagues[1..], sender)
  }

  /** The lines printed when each recipient receives the message. */
  function Deliveries(recipients: seq<User>, message: string): (out: seq<string>)
    ensures |out| == |recipients|
    ensures forall k :: 0 <= k < |recipients| ==> out[k] == ReceiveLine(recipients[k].name, message)
  {
    if recipients == [] then [] else [ReceiveLine(recipients[0].name, message)] + Deliveries(recipients[1..], message)
  }

  /** Exactly the registered users other than the sender receive the message: the sender never
      does, and nobody else is left out. */
  lemma {:induction false} RecipientsExact(colleagues: seq<User>, sender: User, u: User)
    ensures u in Recipients(colleagues, sender) <==> u in colleagues && u != sender
  {
    if colleagues != [] {
      RecipientsExact(colleagues[1..], sender, u);
      assert u in colleagues <==> u == colleagues[0] || u in colleagues[1..] by {
        assert colleagues == [colleagues[0]] + colleagues[1..];
      }
    }
  }

  /** Recipients keep their registration order: the recipients of a list extended by one user
      are the old recipients, followed by that user unless it is the sender. */
  lemma {:induction false} RecipientsSnoc(colleagues: seq<User>, u: User, sender: User)
    ensures Recipients(colleagues + [u], sender) ==
              Recipients(colleagues, sender) + (if u != sender then [u] else [])
  {
    if colleagues == [] {
      assert [u][1..] == [];
    } else {
      assert (colleagues + [u])[0] == colleagues[0];
      assert (colleagues + [u])[1..] == colleagues[1..] + [u];
      RecipientsSnoc(colleagues[1..], u, sender);
    }
  }

  lemma {:induction false} DeliveriesAppend(a: seq<User>, b: seq<User>, message: string)
    ensures Deliveries(a + b, message) == Deliveries(a, message) + Deliveries(b, message)
  {
  }

  /** `ChatRoom`: the registered users. */
  class ChatRoom {
    var colleagues: seq<User>

    constructor ()
      ensures colleagues == []
    {
      colleagues := [];
    }

    /** `add_colleague`: appends to the room's list. */
    method AddColleague(u: User)
      modifies this
      ensures colleagues == old(colleagues) + [u]
    {
      colleagues := colleagues + [u];
    }

    /** `send`: walks the list and has every user other than the sender receive the message. */
    method Send(message: string, sender: User) returns (out: seq<string>)
      ensures out == Deliveries(Recipients(colleagues, sender), message)
    {
      out := [];
      var i := 0;
      while i < |colleagues|
        invariant 0 <= i <= |colleagues|
        invariant out == Deliveries(Recipients(colleagues[..i], sender), message)
      {
        var c := colleagues[i];
        assert colleagues[..i + 1] == colleagues[..i] + [c];
        RecipientsSnoc(colleagues[..i], c, sender);
        DeliveriesAppend(Recipients(colleagues[..i], sender), if c != sender then [c] else [], message);
        if c != sender {
          var line := c.Receive(message);
          out := out + [line];
        }
        i := i + 1;
      }
      assert colleagues[..i] == colleagues;
    }
  }

  /** In a room of two distinct users, a message from either reaches exactly the other. */
  lemma TwoUserRoom(a: User, b: User, message: string)
    requires a != b
    ensures Deliveries(Recipients([a, b], a), message) == [ReceiveLine(b.name, message)]
    ensures Deliveries(Recipients([a, b], b), message) == [ReceiveLine(a.name, message)]
  {
    assert [a, b][1..] == [b] && [b][1..] == [];
    assert Recipients([a, b], a) == [b];
    assert Recipients([a, b], b) == [a];
  }

  /** The send tests: Alice and Bob in one room; Alice's message reaches only Bob, then Bob's
      reaches only Alice. */
  method ChatScenario() returns (aliceOut: seq<string>, bobOut: seq<string>)
    ensures aliceOut == [SendLine("Alice", "Hello, Bob!"), ReceiveLine("Bob", "Hello, Bob!")]
    ensures bobOut == [SendLine("Bob", "Hi Alice!"), ReceiveLine("Alice", "Hi Alice!")]
  {
    var room := new ChatRoom();
    var alice := new User("Alice", room);
    var bob := new User("Bob", room);
    room.AddColleague(alice);
    room.AddColleague(bob);
    assert room.colleagues == [alice, bob];
    TwoUserRoom(alice, bob, "Hello, Bob!");
    TwoUserRoom(alice, bob, "Hi Alice!");
    aliceOut := alice.Send("Hello, Bob!");
    bobOut := bob.Send("Hi Alice!");
  }
}
