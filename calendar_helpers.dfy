/** The constant tables the two services display. */
module CalendarHelpers {

  /** Persian labels, keyed by the Jalali month names the date library formats. */
  const JalaliMonthTranslations: map<string, string> := map[
    "Farvardin" := "فروردین",
    "Ordibehesht" := "اردیبهشت",
    "Khordaad" := "خرداد",
    "Tir" := "تیر",
    "Amordaad" := "مرداد",
    "Shahrivar" := "شهریور",
    "Mehr" := "مهر",
    "Aabaan" := "آبان",
    "Aazar" := "آذر",
    "Dey" := "دی",
    "Bahman" := "بهمن",
    "Esfand" := "اسفند"
  ]

  /** Persian week-day headings, Saturday first. */
  const JalaliWeekDays: seq<string> := [
    "شنبه", "یک شنبه", "دو شنبه", "سه شنبه", "چهار شنبه", "پنج شنبه", "جمعه"
  ]

  /** English week-day headings, Saturday first. */
  const GregorianWeekDays: seq<string> := [
    "Saturday", "Sunday", "Monday", "Tuesday", "Wednesday", "Thursday", "Friday"
  ]
}
