/** Wire vocabulary shared by the relay (server.js) and every client
    (js/multiplayer.js): identifiers, vectors, the player record and the
    payloads of the events the two sides exchange. Vectors are only copied,
    never computed on, so they are plain triples of reals. */
module Protocol {

  /** An optional value; `GetOr` is JavaScript's `value || default` for a
      field that is either absent or an object (objects are always truthy). */
  datatype Option<T> = None | Some(value: T) {
    function GetOr(default: T): T {
      if Some? then value else default
    }
  }

  /** A connection identifier (Socket.IO's `socket.id`). */
  type Id = string

  datatype Vec3 = Vec3(x: real, y: real, z: real)

  /** Only the yaw is synchronised: the `{y}` object of the payloads. */
  datatype Rotation = Rotation(y: real)

  /** The relay's record of one joined connection. */
  datatype PlayerRecord = PlayerRecord(
    id: Id,
    name: string,
    color: string,
    position: Vec3,
    rotation: Rotation,
    isMoving: bool,
    isJumping: bool)

  /** Payload of `playerJoin`; position and rotation may be absent. */
  datatype JoinData = JoinData(
    name: string,
    color: string,
    position: Option<Vec3>,
    rotation: Option<Rotation>)

  /** Payload of `playerUpdate`. */
  datatype UpdateData = UpdateData(
    position: Vec3,
    rotation: Rotation,
    isMoving: bool,
    isJumping: bool)

  /** Events a client emits to the relay. */
  datatype ClientEvent =
    | PlayerJoin(join: JoinData)
    | PlayerUpdate(update: UpdateData)
    | ChatMessage(text: string)

  /** Events the relay emits to clients. */
  datatype ServerEvent =
    | ExistingPlayers(snapshot: map<Id, PlayerRecord>)
    | PlayerJoined(player: PlayerRecord)
    | PlayerMoved(id: Id, position: Vec3, rotation: Rotation, isMoving: bool, isJumping: bool)
    | PlayerLeft(departed: Id)
    | ChatBroadcast(sender: Id, name: string, message: string)
}
