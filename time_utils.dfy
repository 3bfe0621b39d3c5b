/** `getTimeOfDayString`, with the hour of the day as an input. */
module TimeUtils {

  const MORNING: string := "Buenos días"
  const AFTERNOON: string := "Buenas tardes"
  const NIGHT: string := "Buenas noches"

  /** The three greetings are pairwise different. */
  lemma GreetingsDiffer()
    ensures MORNING != AFTERNOON && MORNING != NIGHT && AFTERNOON != NIGHT
  {
    assert |MORNING| == 11 && |AFTERNOON| == 13;
    assert AFTERNOON[7] == 't' && NIGHT[7] == 'n';
  }

  /** The greeting for `Calendar.HOUR_OF_DAY`; the afternoon has two arms, 12..17 and 18..20. */
  function TimeOfDayString(hour: int): (r: string)
    ensures r == MORNING <==> 6 <= hour <= 11
    ensures r == AFTERNOON <==> 12 <= hour <= 20
    ensures r == NIGHT <==> hour < 6 || hour > 20
  {
    GreetingsDiffer();
    if 6 <= hour <= 11 then MORNING
    else if 12 <= hour <= 17 then AFTERNOON
    else if 18 <= hour <= 20 then AFTERNOON
    else NIGHT
  }
}
