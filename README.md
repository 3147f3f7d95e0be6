# Single-car elevator, verified model

This project models the `Elevator` class of `es_a1.py`: a car that stands at
a current floor, keeps a list of pending floor requests free of duplicates,
and serves them by repeatedly travelling to the pending floor nearest to
where it stands, crossing each one off, until nothing is pending.

- `elevator_spec.dfy` (module `ElevatorSpec`) holds the pure part: the
  distance between floors, the effect of a request on the list, Python's
  `min(requests, key=...)` as `NearestIndex` (the FIRST nearest entry wins,
  because `min` only replaces its candidate on a strictly smaller key),
  `list.remove` as `Remove`, and `Schedule`, the order in which `move`
  arrives at the pending floors. The lemmas about `Schedule` state what the
  service loop promises: it is a permutation of the pending list, each
  arrival is nearest-first, no floor is visited twice, and the number of
  passes equals the number of distinct floors requested.
- `elevator.dfy` (module `ElevatorSim`) holds the class `Elevator` with the
  fields `currentFloor` and `requests` (a `seq<int>` the methods reassign,
  as the Python code mutates its list) and a ghost `visited` sequence that
  records the arrivals `move` reports on the console. `Move` is the
  `while` loop of `move`, proved against `Schedule`. `RunOnce` is the
  script at the end of the file, with the random floor as a parameter.

Pending requests are an ordered list; ties go to the earliest entry; no
floor is ever checked against a range. Floors are unbounded integers, and
the `floors` argument of the constructor is ignored.

## Model

| member | source | states |
|---|---|---|
| ElevatorSim.Elevator.constructor | es_a1.py:5-7 | a new car stands at floor 1 with no request pending and nothing visited; the floor count (default 5) is ignored |
| ElevatorSim.Elevator.RequestFloor | es_a1.py:9-11 | the request list becomes `Requested(old list, floor)`; the floor and arrival record are unchanged; a duplicate-free list stays duplicate-free |
| ElevatorSpec.Requested | es_a1.py:9-11 | a requested floor is pending afterwards and nothing else is added; earlier entries keep their order; the list grows by one exactly when the floor was not pending; no duplicates are introduced |
| ElevatorSpec.RequestedIdempotent | es_a1.py:10 | requesting the same floor twice leaves the same list as requesting it once |
| ElevatorSpec.RequestAll | es_a1.py:9-11 | after any series of requests the list holds exactly the old floors and the requested ones, keeps the old list as a prefix, and stays free of duplicates |
| ElevatorSpec.RequestAllDistinct | es_a1.py:9-11 | starting from a fresh car, however often floors are requested, each is pending at most once and the list length is the number of distinct floors asked for |
| ElevatorSpec.NearestIndex | es_a1.py:15 | the chosen pending floor is at minimal distance from the current floor, and every earlier entry is strictly farther (ties go to the earliest entry) |
| ElevatorSpec.IndexOf | es_a1.py:19 | `list.remove` finds the first position holding the floor |
| ElevatorSpec.Remove | es_a1.py:19 | removing a floor shortens the list by one and removes exactly one copy of it; on a duplicate-free list the floor is gone and the list stays duplicate-free |
| ElevatorSpec.RemoveNearest | es_a1.py:15-19 | removing the chosen floor by value deletes exactly the chosen entry, so the remaining floors keep their relative order |
| ElevatorSpec.Schedule | es_a1.py:14-19 | the service order has one arrival per pending entry |
| ElevatorSpec.SchedulePermutation | es_a1.py:14-19 | the floors visited are a permutation of the pending list |
| ElevatorSpec.ScheduleNoDuplicates | es_a1.py:14-19 | on a duplicate-free list no floor is visited twice |
| ElevatorSpec.PassesEqualDistinctRequests | es_a1.py:14-19 | on a duplicate-free list the number of passes equals the number of distinct pending floors |
| ElevatorSpec.ScheduleNearestFirst | es_a1.py:15-18 | every arrival is at a floor no farther from where the car stood than any floor still pending at that moment |
| ElevatorSpec.ServiceRecord | es_a1.py:14-20 | an arrival record extended by a whole run from a duplicate-free list gains no floor twice and exactly one arrival per distinct pending floor |
| ElevatorSim.Elevator.Move | es_a1.py:13-20 | the loop terminates with nothing pending; the arrivals appended to `visited` are exactly `Schedule` from the old floor and list; the car ends at the last floor visited, or where it was if nothing was pending; from a duplicate-free list no floor is visited twice and the number of passes equals the number of distinct pending floors |
| ElevatorSim.RunOnce | es_a1.py:22-24 | a fresh car asked for one floor ends at that floor with nothing pending |

## Left out

- Console output (`print` of the moving and arrival messages): replaced by the ghost `visited` sequence of arrivals.
- `time.sleep(1)`: a simulated travel delay with no logical effect.
- `random.randint(1, 5)` in the script: the drawn floor is the parameter of `RunOnce`.
- The `ValueError` that `list.remove` raises for an absent value: `move` only removes the floor it just chose from the list, so `Remove` requires the floor to be present.
