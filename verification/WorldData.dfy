/** The records that a map's world and its checkpoints are made of. */
module WorldData {
  type Grid = seq<seq<char>>
  datatype Cell = Cell(x: int, y: int)

  datatype NPC = NPC(id: string, name: nat, at: Cell, hp: int, maxHp: int, attack: int, alive: bool)

  datatype Treasure = Treasure(id: string, kind: string, at: Cell, value: int)

  datatype PlayerView = PlayerView(
    username: string, at: Cell, hp: int, maxHp: int, attack: int, potions: int, treasures: int,
    kills: int, deaths: int, victories: int, alive: bool, respawnIn: int, lastUpdate: nat)

  // A capture leaves mapEpoch 0; the node that stores it sets the epoch at which it owns the map.
  datatype MapCheckpoint = MapCheckpoint(
    mapId: string, nodeId: string, mapEpoch: nat, version: int, terrain: Grid,
    players: seq<PlayerView>, npcs: seq<NPC>, treasures: seq<Treasure>)
}
