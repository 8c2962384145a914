/** The birth-year estimate of YearOfBirthWithMonth, lifted out of its
    console program: the current year and month, which the program reads
    from the clock, and the age and birth month, which it reads from the
    user, are parameters. No range check is applied to any of them. */
module YearOfBirth {

  /** The estimated year of birth: one year earlier when the birth month
      is still to come this year. A birthday in the current month counts
      as already passed. */
  function BirthYear(currentYear: int, currentMonth: int, age: int, birthMonth: int): (year: int)
    ensures year == currentYear - age || year == currentYear - age - 1
    ensures year == currentYear - age - 1 <==> birthMonth > currentMonth
  {
    if birthMonth > currentMonth then currentYear - (age + 1) else currentYear - age
  }

  /** The age in completed years of someone born in `birthYear` and
      `birthMonth`, counting a birthday in the current month as passed. */
  function AgeAt(birthYear: int, birthMonth: int, currentYear: int, currentMonth: int): (age: int)
    ensures birthMonth <= currentMonth ==> birthYear + age == currentYear
    ensures birthMonth > currentMonth ==> birthYear + age + 1 == currentYear
  {
    var years := currentYear - birthYear;
    if birthMonth <= currentMonth then years else years - 1
  }

  /** Given the true age, the estimate recovers the true birth year. */
  lemma BirthYearRecoversYear(birthYear: int, birthMonth: int, currentYear: int, currentMonth: int)
    ensures BirthYear(currentYear, currentMonth, AgeAt(birthYear, birthMonth, currentYear, currentMonth), birthMonth) == birthYear
  {
  }

  /** Someone born in the estimated year is of the stated age. */
  lemma AgeAtRecoversAge(currentYear: int, currentMonth: int, age: int, birthMonth: int)
    ensures AgeAt(BirthYear(currentYear, currentMonth, age, birthMonth), birthMonth, currentYear, currentMonth) == age
  {
  }

  /** One more year of age gives exactly one year earlier. */
  lemma OlderIsOneYearEarlier(currentYear: int, currentMonth: int, age: int, birthMonth: int)
    ensures BirthYear(currentYear, currentMonth, age + 1, birthMonth)
         == BirthYear(currentYear, currentMonth, age, birthMonth) - 1
  {
  }

  /** A later birth month never gives a later year. */
  lemma LaterMonthNotLaterYear(currentYear: int, currentMonth: int, age: int, earlier: int, later: int)
    requires earlier <= later
    ensures BirthYear(currentYear, currentMonth, age, later) <= BirthYear(currentYear, currentMonth, age, earlier)
  {
  }
}
