/** The greeting on the home page, chosen from the hour of the day. */
module Greeting {

  datatype Greeting = Morning | Afternoon | Evening | Night

  /** The greeting for `hour` (0 to 23 on a clock; the clock itself is not
      part of the model). */
  function GreetingFor(hour: int): Greeting {
    if 5 <= hour < 12 then Morning
    else if 12 <= hour < 18 then Afternoon
    else if 18 <= hour < 22 then Evening
    else Night
  }

  /** The hour ranges of the four greetings. */
  lemma Buckets(hour: int)
    requires 0 <= hour <= 23
    ensures GreetingFor(hour) == Morning <==> 5 <= hour <= 11
    ensures GreetingFor(hour) == Afternoon <==> 12 <= hour <= 17
    ensures GreetingFor(hour) == Evening <==> 18 <= hour <= 21
    ensures GreetingFor(hour) == Night <==> 0 <= hour <= 4 || 22 <= hour <= 23
  {
  }
}
