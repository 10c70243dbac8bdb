/** The mediator pattern's chat room: users register on construction and a
    message goes through the room to every other registered user. Users
    are identified by reference. */
module ChatRoom {
  import Lists

  type User = nat

  datatype Delivery = Delivery(recipient: User, sender: User, message: string)

  datatype Room = Room(title: string, users: seq<User>)

  function NewRoom(title: string): Room {
    Room(title, [])
  }

  /** `addUser`: appends in join order. Constructing a `User` calls it, so a
      new user is registered in its room. */
  function AddUser(room: Room, u: User): (r: Room)
    ensures |r.users| == |room.users| + 1 && r.users[..|room.users|] == room.users
    ensures r.users[|room.users|] == u
    ensures u in r.users && r.title == room.title
  {
    room.(users := room.users + [u])
  }

  /** `sendMessage`: one delivery to each registered user other than the
      sender, in join order. */
  function SendMessage(room: Room, sender: User, message: string): (t: seq<Delivery>)
    ensures var others := Lists.RemoveAll(room.users, sender);
      |t| == |others| && forall i :: 0 <= i < |t| ==> t[i] == Delivery(others[i], sender, message)
    ensures forall i :: 0 <= i < |t| ==> t[i].recipient != sender && t[i].recipient in room.users
  {
    var others := Lists.RemoveAll(room.users, sender);
    Lists.RemoveAllMembers(room.users, sender);
    seq(|others|, i requires 0 <= i < |others| => Delivery(others[i], sender, message))
  }

  /** Who received a message, in order. */
  function Recipients(t: seq<Delivery>): seq<User> {
    seq(|t|, i requires 0 <= i < |t| => t[i].recipient)
  }

  /** Every registered user other than the sender receives the message, and
      the sender never does. */
  lemma EveryoneElseReceives(room: Room, sender: User, message: string, u: User)
    ensures (exists i :: 0 <= i < |SendMessage(room, sender, message)|
              && SendMessage(room, sender, message)[i].recipient == u)
            <==> (u in room.users && u != sender)
  {
    var t := SendMessage(room, sender, message);
    var others := Lists.RemoveAll(room.users, sender);
    Lists.RemoveAllMembers(room.users, sender);
    if u in room.users && u != sender {
      assert u in others;
      var i :| 0 <= i < |others| && others[i] == u;
      assert t[i].recipient == u;
    }
  }

  /** Constructing a `User` registers it through `addUser`, so from then on
      it receives every message another user sends in the room, whatever
      the room held before. */
  lemma JoinedUserHearsOthers(room: Room, u: User, sender: User, message: string)
    requires sender != u
    ensures Delivery(u, sender, message) in SendMessage(AddUser(room, u), sender, message)
  {
    var joined := AddUser(room, u);
    EveryoneElseReceives(joined, sender, message, u);
  }

  /** The demo, with Fernando, Gastón and Mariangel as three distinct users
      joining in that order: each message reaches exactly the other two, in
      join order. */
  lemma DemoScenario(fernando: User, gaston: User, mariangel: User)
    requires fernando != gaston && gaston != mariangel && fernando != mariangel
    ensures var room := AddUser(AddUser(AddUser(NewRoom("Grupo de trabajo"), fernando), gaston), mariangel);
      && Recipients(SendMessage(room, fernando, "Hola a todos!")) == [gaston, mariangel]
      && Recipients(SendMessage(room, gaston, "Hola Fernando, ¿Cómo estás?")) == [fernando, mariangel]
      && Recipients(SendMessage(room, mariangel, "Hola Fernando, Gastón, ¿Cómo están?")) == [fernando, gaston]
  {
    var room := AddUser(AddUser(AddUser(NewRoom("Grupo de trabajo"), fernando), gaston), mariangel);
    assert room.users == [fernando, gaston, mariangel];
    Lists.RemoveFromDistinct(fernando, gaston, mariangel);
  }
}
