/**
 * The parts of a build world that the login handlers read. The world
 * registry itself (BuildWorldManager / WorldManager) is represented by a
 * map from world name to this record.
 */
module World {

  /** The semantic project status of a build world. */
  datatype WorldStatus = NotStarted | InProgress | AlmostFinished | Finished | Archive | Hidden

  /** A registered build world: its name, its status and whether physics is on. */
  datatype WorldData = WorldData(name: string, status: WorldStatus, physics: bool)
}
