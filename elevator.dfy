/**
  The elevator itself: a car that stands at `currentFloor`, collects floor
  requests in a list, and serves them nearest-first until none is pending.
  The arrival messages the car reports are recorded in the ghost sequence
  `visited`; the travel delay has no logical effect and is not modelled.
 */
module ElevatorSim {
  import opened ElevatorSpec

  class Elevator {
    var currentFloor: int
    var requests: seq<int>
    // floors in the order the car has arrived at them
    ghost var visited: seq<int>

    /** The object invariant: no floor is pending twice. */
    ghost predicate Valid()
      reads this
    {
      NoDuplicates(requests)
    }

    /** A new car stands at floor 1 with nothing pending; the number of
        floors is accepted but never used. */
    constructor (floors: int := 5)
      ensures Valid()
      ensures currentFloor == 1 && requests == [] && visited == []
    {
      currentFloor := 1;
      requests := [];
      visited := [];
    }

    /** Asks for `floor`: appended at the end unless it is already pending. */
    method RequestFloor(floor: int)
      modifies this
      ensures requests == Requested(old(requests), floor)
      ensures old(Valid()) ==> Valid()
      ensures currentFloor == old(currentFloor) && visited == old(visited)
    {
      if floor !in requests {
        requests := requests + [floor];
      }
    }

    /** Serves every pending floor: on each pass the car goes to the first
        pending floor nearest to where it stands and crosses it off. */
    method Move()
      modifies this
      ensures Valid() && requests == []
      ensures visited == old(visited) + Schedule(old(currentFloor), old(requests))
      ensures old(requests) == [] ==> currentFloor == old(currentFloor)
      ensures old(requests) != [] ==> currentFloor == visited[|visited| - 1]
      ensures old(Valid()) ==> NoDuplicates(visited[|old(visited)|..])
      ensures old(Valid()) ==> |visited| - |old(visited)| == |Elements(old(requests))|
    {
      ghost var plan := old(visited) + Schedule(old(currentFloor), old(requests));
      ghost var moved := false;
      while requests != []
        invariant visited + Schedule(currentFloor, requests) == plan
        invariant !moved ==> currentFloor == old(currentFloor) && visited == old(visited)
        invariant !moved ==> requests == old(requests)
        invariant moved ==> old(requests) != []
        invariant moved ==> |visited| > 0 && currentFloor == visited[|visited| - 1]
        decreases |requests|
      {
        var k := NearestIndex(requests, currentFloor);
        var target := requests[k];
        ScheduleStep(visited, currentFloor, requests);
        currentFloor := target;
        requests := Remove(requests, target);
        visited := visited + [target];
        moved := true;
      }
      assert moved <==> old(requests) != [];
      ServiceRecord(old(visited), old(currentFloor), old(requests), visited);
    }
  }

  /** The script at the bottom of es_a1.py: a fresh car, one request
      for a floor the script draws at random (here the parameter), then a
      run.  The car ends at that floor with nothing pending. */
  method RunOnce(floor: int) returns (finalFloor: int, pending: seq<int>)
    ensures finalFloor == floor && pending == []
  {
    var car := new Elevator();
    car.RequestFloor(floor);
    car.Move();
    finalFloor, pending := car.currentFloor, car.requests;
  }
}
