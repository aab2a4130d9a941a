/** Missions as both halves of the system describe them (Mission.cs, MissionFactory.cs; Formation.cs and
    formation.py, which mirror each other). */
module Missions {

  import opened Geometry

  datatype Kind = WaypointFollow | LeaderFollowerFormation

  datatype Shape = Line | V

  datatype Mission = Mission(
    id: nat, name: string, kind: Kind, formation: Shape, waypoints: seq<Vec>, droneCount: nat, spacing: real,
    createdAt: real)

  /** A planned mission as it takes off. */
  function Launched(planned: Mission, now: real): Mission {
    Mission(planned.id, planned.name, planned.kind, planned.formation, planned.waypoints, planned.droneCount,
            planned.spacing, now)
  }

  /** The i-th follower's place behind the leader: in a line, or alternating sides of a V. */
  function FollowerOffset(shape: Shape, i: nat, spacing: real): Vec {
    match shape
    case Line => Vec(-spacing * (i + 1) as real, 0.0, 0.0)
    case V =>
      var rank := (i / 2 + 1) as real;
      Vec(-spacing * rank, (if i % 2 == 0 then spacing else -spacing) * rank, 0.0)
  }
}
