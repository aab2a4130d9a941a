/** Drones, by the number in their name (`drone_7` is 7), so that id order is the order of numbers. */
module Fleet {

  type Drone = nat
}
