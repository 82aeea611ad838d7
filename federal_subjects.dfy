/**
 * The federal-subject code table: a Russian region's name as the geocoder
 * spells it, mapped to its two-digit code. Entries are kept by position, in
 * the order the table lists them, and the map is built from them the way a
 * dictionary literal is: a later entry for the same name wins.
 */
module FederalSubjects {
  import opened Wrappers

  const Size: nat := 86

  /** The name of the `i`-th entry. */
  function NameAt(i: nat): string
  {
    if i < 43 then
      if i < 21 then
        if i < 10 then
          if i < 5 then
            if i < 2 then
              if i < 1 then
                if i == 0 then "Алтайский край" else ""
              else
                if i == 1 then "Амурская область" else ""
            else
              if i < 3 then
                if i == 2 then "Архангельская область" else ""
              else
                if i < 4 then
                  if i == 3 then "Астраханская область" else ""
                else
                  if i == 4 then "Байконур" else ""
          else
            if i < 7 then
              if i < 6 then
                if i == 5 then "Белгородская область" else ""
              else
                if i == 6 then "Брянская область" else ""
            else
              if i < 8 then
                if i == 7 then "Владимирская область" else ""
              else
                if i < 9 then
                  if i == 8 then "Волгоградская область" else ""
                else
                  if i == 9 then "Вологодская область" else ""
        else
          if i < 15 then
            if i < 12 then
              if i < 11 then
                if i == 10 then "Воронежская область" else ""
              else
                if i == 11 then "Еврейская автономная область" else ""
            else
              if i < 13 then
                if i == 12 then "Забайкальский край" else ""
              else
                if i < 14 then
                  if i == 13 then "Ивановская область" else ""
                else
                  if i == 14 then "Иркутская область" else ""
          else
            if i < 18 then
              if i < 16 then
                if i == 15 then "Кабардино-Балкарская Республика" else ""
              else
                if i < 17 then
                  if i == 16 then "Калининградская область" else ""
                else
                  if i == 17 then "Калужская область" else ""
            else
              if i < 19 then
                if i == 18 then "Камчатский край" else ""
              else
                if i < 20 then
                  if i == 19 then "Карачаево-Черкесская Республика" else ""
                else
                  if i == 20 then "Кемеровская область" else ""
      else
        if i < 32 then
          if i < 26 then
            if i < 23 then
              if i < 22 then
                if i == 21 then "Кировская область" else ""
              else
                if i == 22 then "Костромская область" else ""
            else
              if i < 24 then
                if i == 23 then "Краснодарский край" else ""
              else
                if i < 25 then
                  if i == 24 then "Красноярский край" else ""
                else
                  if i == 25 then "Курганская область" else ""
          else
            if i < 29 then
              if i < 27 then
                if i == 26 then "Курская область" else ""
              else
                if i < 28 then
                  if i == 27 then "Ленинградская область" else ""
                else
                  if i == 28 then "Липецкая область" else ""
            else
              if i < 30 then
                if i == 29 then "Магаданская область" else ""
              else
                if i < 31 then
                  if i == 30 then "Москва" else ""
                else
                  if i == 31 then "Московская область" else ""
        else
          if i < 37 then
            if i < 34 then
              if i < 33 then
                if i == 32 then "Мурманская область" else ""
              else
                if i == 33 then "Ненецкий автономный округ" else ""
            else
              if i < 35 then
                if i == 34 then "Нижегородская область" else ""
              else
                if i < 36 then
                  if i == 35 then "Новгородская область" else ""
                else
                  if i == 36 then "Новосибирская область" else ""
          else
            if i < 40 then
              if i < 38 then
                if i == 37 then "Омская область" else ""
              else
                if i < 39 then
                  if i == 38 then "Оренбургская область" else ""
                else
                  if i == 39 then "Орловская область" else ""
            else
              if i < 41 then
                if i == 40 then "Пензенская область" else ""
              else
                if i < 42 then
                  if i == 41 then "Пермский край" else ""
                else
                  if i == 42 then "Приморский край" else ""
    else
      if i < 64 then
        if i < 53 then
          if i < 48 then
            if i < 45 then
              if i < 44 then
                if i == 43 then "Псковская область" else ""
              else
                if i == 44 then "Республика Адыгея" else ""
            else
              if i < 46 then
                if i == 45 then "Республика Алтай" else ""
              else
                if i < 47 then
                  if i == 46 then "Республика Башкортостан" else ""
                else
                  if i == 47 then "Республика Бурятия" else ""
          else
            if i < 50 then
              if i < 49 then
                if i == 48 then "Республика Дагестан" else ""
              else
                if i == 49 then "Республика Ингушетия" else ""
            else
              if i < 51 then
                if i == 50 then "Республика Калмыкия" else ""
              else
                if i < 52 then
                  if i == 51 then "Республика Карелия" else ""
                else
                  if i == 52 then "Республика Коми" else ""
        else
          if i < 58 then
            if i < 55 then
              if i < 54 then
                if i == 53 then "Республика Крым" else ""
              else
                if i == 54 then "Республика Марий Эл" else ""
            else
              if i < 56 then
                if i == 55 then "Республика Мордовия" else ""
              else
                if i < 57 then
                  if i == 56 then "Республика Саха (Якутия)" else ""
                else
                  if i == 57 then "Республика Северная Осетия-Алания" else ""
          else
            if i < 61 then
              if i < 59 then
                if i == 58 then "Республика Татарстан" else ""
              else
                if i < 60 then
                  if i == 59 then "Республика Тыва" else ""
                else
                  if i == 60 then "Республика Хакасия" else ""
            else
              if i < 62 then
                if i == 61 then "Ростовская область" else ""
              else
                if i < 63 then
                  if i == 62 then "Рязанская область" else ""
                else
                  if i == 63 then "Самарская область" else ""
      else
        if i < 75 then
          if i < 69 then
            if i < 66 then
              if i < 65 then
                if i == 64 then "Санкт-Петербург" else ""
              else
                if i == 65 then "Саратовская область" else ""
            else
              if i < 67 then
                if i == 66 then "Сахалинская область" else ""
              else
                if i < 68 then
                  if i == 67 then "Свердловская область" else ""
                else
                  if i == 68 then "Севастополь" else ""
          else
            if i < 72 then
              if i < 70 then
                if i == 69 then "Смоленская область" else ""
              else
                if i < 71 then
                  if i == 70 then "Ставропольский край" else ""
                else
                  if i == 71 then "Тамбовская область" else ""
            else
              if i < 73 then
                if i == 72 then "Тверская область" else ""
              else
                if i < 74 then
                  if i == 73 then "Томская область" else ""
                else
                  if i == 74 then "Тульская область" else ""
        else
          if i < 80 then
            if i < 77 then
              if i < 76 then
                if i == 75 then "Тюменская область" else ""
              else
                if i == 76 then "Удмуртская Республика" else ""
            else
              if i < 78 then
                if i == 77 then "Ульяновская область" else ""
              else
                if i < 79 then
                  if i == 78 then "Хабаровский край" else ""
                else
                  if i == 79 then "Ханты-Мансийский автономный округ" else ""
          else
            if i < 83 then
              if i < 81 then
                if i == 80 then "Челябинская область" else ""
              else
                if i < 82 then
                  if i == 81 then "Чеченская Республика" else ""
                else
                  if i == 82 then "Чувашская Республика" else ""
            else
              if i < 84 then
                if i == 83 then "Чукотский автономный округ" else ""
              else
                if i < 85 then
                  if i == 84 then "Ямало-Ненецкий автономный округ" else ""
                else
                  if i == 85 then "Ярославская область" else ""
  }

  /** The code of the `i`-th entry. */
  function CodeAt(i: nat): int
  {
    if i < 43 then
      if i < 21 then
        if i < 10 then
          if i < 5 then
            if i < 2 then
              if i < 1 then
                if i == 0 then 22 else 0
              else
                if i == 1 then 28 else 0
            else
              if i < 3 then
                if i == 2 then 29 else 0
              else
                if i < 4 then
                  if i == 3 then 30 else 0
                else
                  if i == 4 then 99 else 0
          else
            if i < 7 then
              if i < 6 then
                if i == 5 then 31 else 0
              else
                if i == 6 then 32 else 0
            else
              if i < 8 then
                if i == 7 then 33 else 0
              else
                if i < 9 then
                  if i == 8 then 34 else 0
                else
                  if i == 9 then 35 else 0
        else
          if i < 15 then
            if i < 12 then
              if i < 11 then
                if i == 10 then 36 else 0
              else
                if i == 11 then 79 else 0
            else
              if i < 13 then
                if i == 12 then 75 else 0
              else
                if i < 14 then
                  if i == 13 then 37 else 0
                else
                  if i == 14 then 38 else 0
          else
            if i < 18 then
              if i < 16 then
                if i == 15 then 7 else 0
              else
                if i < 17 then
                  if i == 16 then 39 else 0
                else
                  if i == 17 then 40 else 0
            else
              if i < 19 then
                if i == 18 then 41 else 0
              else
                if i < 20 then
                  if i == 19 then 9 else 0
                else
                  if i == 20 then 42 else 0
      else
        if i < 32 then
          if i < 26 then
            if i < 23 then
              if i < 22 then
                if i == 21 then 43 else 0
              else
                if i == 22 then 44 else 0
            else
              if i < 24 then
                if i == 23 then 23 else 0
              else
                if i < 25 then
                  if i == 24 then 24 else 0
                else
                  if i == 25 then 45 else 0
          else
            if i < 29 then
              if i < 27 then
                if i == 26 then 46 else 0
              else
                if i < 28 then
                  if i == 27 then 47 else 0
                else
                  if i == 28 then 48 else 0
            else
              if i < 30 then
                if i == 29 then 49 else 0
              else
                if i < 31 then
                  if i == 30 then 77 else 0
                else
                  if i == 31 then 50 else 0
        else
          if i < 37 then
            if i < 34 then
              if i < 33 then
                if i == 32 then 51 else 0
              else
                if i == 33 then 83 else 0
            else
              if i < 35 then
                if i == 34 then 52 else 0
              else
                if i < 36 then
                  if i == 35 then 53 else 0
                else
                  if i == 36 then 54 else 0
          else
            if i < 40 then
              if i < 38 then
                if i == 37 then 55 else 0
              else
                if i < 39 then
                  if i == 38 then 56 else 0
                else
                  if i == 39 then 57 else 0
            else
              if i < 41 then
                if i == 40 then 58 else 0
              else
                if i < 42 then
                  if i == 41 then 59 else 0
                else
                  if i == 42 then 25 else 0
    else
      if i < 64 then
        if i < 53 then
          if i < 48 then
            if i < 45 then
              if i < 44 then
                if i == 43 then 60 else 0
              else
                if i == 44 then 1 else 0
            else
              if i < 46 then
                if i == 45 then 4 else 0
              else
                if i < 47 then
                  if i == 46 then 2 else 0
                else
                  if i == 47 then 3 else 0
          else
            if i < 50 then
              if i < 49 then
                if i == 48 then 5 else 0
              else
                if i == 49 then 6 else 0
            else
              if i < 51 then
                if i == 50 then 8 else 0
              else
                if i < 52 then
                  if i == 51 then 10 else 0
                else
                  if i == 52 then 11 else 0
        else
          if i < 58 then
            if i < 55 then
              if i < 54 then
                if i == 53 then 91 else 0
              else
                if i == 54 then 12 else 0
            else
              if i < 56 then
                if i == 55 then 13 else 0
              else
                if i < 57 then
                  if i == 56 then 14 else 0
                else
                  if i == 57 then 15 else 0
          else
            if i < 61 then
              if i < 59 then
                if i == 58 then 16 else 0
              else
                if i < 60 then
                  if i == 59 then 17 else 0
                else
                  if i == 60 then 19 else 0
            else
              if i < 62 then
                if i == 61 then 61 else 0
              else
                if i < 63 then
                  if i == 62 then 62 else 0
                else
                  if i == 63 then 63 else 0
      else
        if i < 75 then
          if i < 69 then
            if i < 66 then
              if i < 65 then
                if i == 64 then 78 else 0
              else
                if i == 65 then 64 else 0
            else
              if i < 67 then
                if i == 66 then 65 else 0
              else
                if i < 68 then
                  if i == 67 then 66 else 0
                else
                  if i == 68 then 92 else 0
          else
            if i < 72 then
              if i < 70 then
                if i == 69 then 67 else 0
              else
                if i < 71 then
                  if i == 70 then 26 else 0
                else
                  if i == 71 then 68 else 0
            else
              if i < 73 then
                if i == 72 then 69 else 0
              else
                if i < 74 then
                  if i == 73 then 70 else 0
                else
                  if i == 74 then 71 else 0
        else
          if i < 80 then
            if i < 77 then
              if i < 76 then
                if i == 75 then 72 else 0
              else
                if i == 76 then 18 else 0
            else
              if i < 78 then
                if i == 77 then 73 else 0
              else
                if i < 79 then
                  if i == 78 then 27 else 0
                else
                  if i == 79 then 86 else 0
          else
            if i < 83 then
              if i < 81 then
                if i == 80 then 74 else 0
              else
                if i < 82 then
                  if i == 81 then 20 else 0
                else
                  if i == 82 then 21 else 0
            else
              if i < 84 then
                if i == 83 then 87 else 0
              else
                if i < 85 then
                  if i == 84 then 89 else 0
                else
                  if i == 85 then 76 else 0
  }

  /** The position holding a code, or -1 for a code no entry has. */
  function PositionOf(code: int): int
  {
    if code < 44 then
      if code < 22 then
        if code < 11 then
          if code < 6 then
            if code < 3 then
              if code < 2 then
                if code == 1 then 44 else -1
              else
                if code == 2 then 46 else -1
            else
              if code < 4 then
                if code == 3 then 47 else -1
              else
                if code < 5 then
                  if code == 4 then 45 else -1
                else
                  if code == 5 then 48 else -1
          else
            if code < 8 then
              if code < 7 then
                if code == 6 then 49 else -1
              else
                if code == 7 then 15 else -1
            else
              if code < 9 then
                if code == 8 then 50 else -1
              else
                if code < 10 then
                  if code == 9 then 19 else -1
                else
                  if code == 10 then 51 else -1
        else
          if code < 16 then
            if code < 13 then
              if code < 12 then
                if code == 11 then 52 else -1
              else
                if code == 12 then 54 else -1
            else
              if code < 14 then
                if code == 13 then 55 else -1
              else
                if code < 15 then
                  if code == 14 then 56 else -1
                else
                  if code == 15 then 57 else -1
          else
            if code < 19 then
              if code < 17 then
                if code == 16 then 58 else -1
              else
                if code < 18 then
                  if code == 17 then 59 else -1
                else
                  if code == 18 then 76 else -1
            else
              if code < 20 then
                if code == 19 then 60 else -1
              else
                if code < 21 then
                  if code == 20 then 81 else -1
                else
                  if code == 21 then 82 else -1
      else
        if code < 33 then
          if code < 27 then
            if code < 24 then
              if code < 23 then
                if code == 22 then 0 else -1
              else
                if code == 23 then 23 else -1
            else
              if code < 25 then
                if code == 24 then 24 else -1
              else
                if code < 26 then
                  if code == 25 then 42 else -1
                else
                  if code == 26 then 70 else -1
          else
            if code < 30 then
              if code < 28 then
                if code == 27 then 78 else -1
              else
                if code < 29 then
                  if code == 28 then 1 else -1
                else
                  if code == 29 then 2 else -1
            else
              if code < 31 then
                if code == 30 then 3 else -1
              else
                if code < 32 then
                  if code == 31 then 5 else -1
                else
                  if code == 32 then 6 else -1
        else
          if code < 38 then
            if code < 35 then
              if code < 34 then
                if code == 33 then 7 else -1
              else
                if code == 34 then 8 else -1
            else
              if code < 36 then
                if code == 35 then 9 else -1
              else
                if code < 37 then
                  if code == 36 then 10 else -1
                else
                  if code == 37 then 13 else -1
          else
            if code < 41 then
              if code < 39 then
                if code == 38 then 14 else -1
              else
                if code < 40 then
                  if code == 39 then 16 else -1
                else
                  if code == 40 then 17 else -1
            else
              if code < 42 then
                if code == 41 then 18 else -1
              else
                if code < 43 then
                  if code == 42 then 20 else -1
                else
                  if code == 43 then 21 else -1
    else
      if code < 65 then
        if code < 54 then
          if code < 49 then
            if code < 46 then
              if code < 45 then
                if code == 44 then 22 else -1
              else
                if code == 45 then 25 else -1
            else
              if code < 47 then
                if code == 46 then 26 else -1
              else
                if code < 48 then
                  if code == 47 then 27 else -1
                else
                  if code == 48 then 28 else -1
          else
            if code < 51 then
              if code < 50 then
                if code == 49 then 29 else -1
              else
                if code == 50 then 31 else -1
            else
              if code < 52 then
                if code == 51 then 32 else -1
              else
                if code < 53 then
                  if code == 52 then 34 else -1
                else
                  if code == 53 then 35 else -1
        else
          if code < 59 then
            if code < 56 then
              if code < 55 then
                if code == 54 then 36 else -1
              else
                if code == 55 then 37 else -1
            else
              if code < 57 then
                if code == 56 then 38 else -1
              else
                if code < 58 then
                  if code == 57 then 39 else -1
                else
                  if code == 58 then 40 else -1
          else
            if code < 62 then
              if code < 60 then
                if code == 59 then 41 else -1
              else
                if code < 61 then
                  if code == 60 then 43 else -1
                else
                  if code == 61 then 61 else -1
            else
              if code < 63 then
                if code == 62 then 62 else -1
              else
                if code < 64 then
                  if code == 63 then 63 else -1
                else
                  if code == 64 then 65 else -1
      else
        if code < 76 then
          if code < 70 then
            if code < 67 then
              if code < 66 then
                if code == 65 then 66 else -1
              else
                if code == 66 then 67 else -1
            else
              if code < 68 then
                if code == 67 then 69 else -1
              else
                if code < 69 then
                  if code == 68 then 71 else -1
                else
                  if code == 69 then 72 else -1
          else
            if code < 73 then
              if code < 71 then
                if code == 70 then 73 else -1
              else
                if code < 72 then
                  if code == 71 then 74 else -1
                else
                  if code == 72 then 75 else -1
            else
              if code < 74 then
                if code == 73 then 77 else -1
              else
                if code < 75 then
                  if code == 74 then 80 else -1
                else
                  if code == 75 then 12 else -1
        else
          if code < 86 then
            if code < 78 then
              if code < 77 then
                if code == 76 then 85 else -1
              else
                if code == 77 then 30 else -1
            else
              if code < 79 then
                if code == 78 then 64 else -1
              else
                if code < 83 then
                  if code == 79 then 11 else -1
                else
                  if code == 83 then 33 else -1
          else
            if code < 91 then
              if code < 87 then
                if code == 86 then 79 else -1
              else
                if code < 89 then
                  if code == 87 then 83 else -1
                else
                  if code == 89 then 84 else -1
            else
              if code < 92 then
                if code == 91 then 53 else -1
              else
                if code < 99 then
                  if code == 92 then 68 else -1
                else
                  if code == 99 then 4 else -1
  }

  /** The dictionary literal made of the first `n` entries of a listing. */
  function TableOf(name: nat -> string, code: nat -> int, n: nat): map<string, int>
  {
    if n == 0 then map[] else TableOf(name, code, n - 1)[name(n - 1) := code(n - 1)]
  }

  /** `FEDERAL_SUBJECT_CODES`. */
  const FederalSubjectCodes: map<string, int> := TableOf(NameAt, CodeAt, Size)

  /** `FEDERAL_SUBJECT_CODES.get(subject)`. */
  function FederalCode(subject: string): Option<int>
  {
    if subject in FederalSubjectCodes then Some(FederalSubjectCodes[subject]) else None
  }

  /** Every name in the dictionary came from an entry, and its code is that entry's code. */
  lemma {:induction false} InTable(name: nat -> string, code: nat -> int, n: nat, k: string)
    requires k in TableOf(name, code, n)
    ensures exists i :: 0 <= i < n && name(i) == k && TableOf(name, code, n)[k] == code(i)
  {
    if name(n - 1) != k {
      InTable(name, code, n - 1, k);
    }
  }

  /** Every entry's name is in the dictionary. */
  lemma {:induction false} EntryInTable(name: nat -> string, code: nat -> int, n: nat, i: nat)
    requires i < n
    ensures name(i) in TableOf(name, code, n)
  {
    if i < n - 1 {
      EntryInTable(name, code, n - 1, i);
    }
  }

  /** A name's code is that of its last entry. */
  lemma {:induction false} LastWins(name: nat -> string, code: nat -> int, n: nat, i: nat, k: string)
    requires i < n && name(i) == k
    requires forall j | i < j < n :: name(j) != k
    ensures k in TableOf(name, code, n) && TableOf(name, code, n)[k] == code(i)
  {
    if n - 1 != i {
      LastWins(name, code, n - 1, i, k);
    }
  }

  /** A name no entry has is not in the dictionary. */
  lemma {:induction false} Absent(name: nat -> string, code: nat -> int, n: nat, k: string)
    requires forall j | 0 <= j < n :: name(j) != k
    ensures k !in TableOf(name, code, n)
  {
    if n > 0 {
      Absent(name, code, n - 1, k);
    }
  }

  /** Every entry's code lies in 1..99. */
  lemma EntryCodesInRange()
    ensures forall i | 0 <= i < Size :: 1 <= CodeAt(i) <= 99
  {
    forall i | 0 <= i < Size
      ensures 1 <= CodeAt(i) <= 99
    {
      match i
        case 0 =>
        case 1 =>
        case 2 =>
        case 3 =>
        case 4 =>
        case 5 =>
        case 6 =>
        case 7 =>
        case 8 =>
        case 9 =>
        case 10 =>
        case 11 =>
        case 12 =>
        case 13 =>
        case 14 =>
        case 15 =>
        case 16 =>
        case 17 =>
        case 18 =>
        case 19 =>
        case 20 =>
        case 21 =>
        case 22 =>
        case 23 =>
        case 24 =>
        case 25 =>
        case 26 =>
        case 27 =>
        case 28 =>
        case 29 =>
        case 30 =>
        case 31 =>
        case 32 =>
        case 33 =>
        case 34 =>
        case 35 =>
        case 36 =>
        case 37 =>
        case 38 =>
        case 39 =>
        case 40 =>
        case 41 =>
        case 42 =>
        case 43 =>
        case 44 =>
        case 45 =>
        case 46 =>
        case 47 =>
        case 48 =>
        case 49 =>
        case 50 =>
        case 51 =>
        case 52 =>
        case 53 =>
        case 54 =>
        case 55 =>
        case 56 =>
        case 57 =>
        case 58 =>
        case 59 =>
        case 60 =>
        case 61 =>
        case 62 =>
        case 63 =>
        case 64 =>
        case 65 =>
        case 66 =>
        case 67 =>
        case 68 =>
        case 69 =>
        case 70 =>
        case 71 =>
        case 72 =>
        case 73 =>
        case 74 =>
        case 75 =>
        case 76 =>
        case 77 =>
        case 78 =>
        case 79 =>
        case 80 =>
        case 81 =>
        case 82 =>
        case 83 =>
        case 84 =>
        case 85 =>
    }
  }

  /** Each code is held by exactly one entry: `PositionOf` finds it. */
  lemma PositionOfCodeAt(i: nat)
    requires i < Size
    ensures PositionOf(CodeAt(i)) == i
  {
    if i < 22 {
      PositionOfCodeAtPart1(i);
    } else if i < 44 {
      PositionOfCodeAtPart2(i);
    } else if i < 66 {
      PositionOfCodeAtPart3(i);
    } else {
      PositionOfCodeAtPart4(i);
    }
  }

  lemma PositionOfCodeAtPart1(i: nat)
    requires 0 <= i < 22
    ensures PositionOf(CodeAt(i)) == i
  {
    match i
    case 0 =>
    case 1 =>
    case 2 =>
    case 3 =>
    case 4 =>
    case 5 =>
    case 6 =>
    case 7 =>
    case 8 =>
    case 9 =>
    case 10 =>
    case 11 =>
    case 12 =>
    case 13 =>
    case 14 =>
    case 15 =>
    case 16 =>
    case 17 =>
    case 18 =>
    case 19 =>
    case 20 =>
    case 21 =>
  }

  lemma PositionOfCodeAtPart2(i: nat)
    requires 22 <= i < 44
    ensures PositionOf(CodeAt(i)) == i
  {
    match i
    case 22 =>
    case 23 =>
    case 24 =>
    case 25 =>
    case 26 =>
    case 27 =>
    case 28 =>
    case 29 =>
    case 30 =>
    case 31 =>
    case 32 =>
    case 33 =>
    case 34 =>
    case 35 =>
    case 36 =>
    case 37 =>
    case 38 =>
    case 39 =>
    case 40 =>
    case 41 =>
    case 42 =>
    case 43 =>
  }

  lemma PositionOfCodeAtPart3(i: nat)
    requires 44 <= i < 66
    ensures PositionOf(CodeAt(i)) == i
  {
    match i
    case 44 =>
    case 45 =>
    case 46 =>
    case 47 =>
    case 48 =>
    case 49 =>
    case 50 =>
    case 51 =>
    case 52 =>
    case 53 =>
    case 54 =>
    case 55 =>
    case 56 =>
    case 57 =>
    case 58 =>
    case 59 =>
    case 60 =>
    case 61 =>
    case 62 =>
    case 63 =>
    case 64 =>
    case 65 =>
  }

  lemma PositionOfCodeAtPart4(i: nat)
    requires 66 <= i < 86
    ensures PositionOf(CodeAt(i)) == i
  {
    match i
    case 66 =>
    case 67 =>
    case 68 =>
    case 69 =>
    case 70 =>
    case 71 =>
    case 72 =>
    case 73 =>
    case 74 =>
    case 75 =>
    case 76 =>
    case 77 =>
    case 78 =>
    case 79 =>
    case 80 =>
    case 81 =>
    case 82 =>
    case 83 =>
    case 84 =>
    case 85 =>
  }

  /** No two entries share a code. */
  lemma EntryCodesDistinct(i: nat, j: nat)
    requires i < Size && j < Size
    ensures CodeAt(i) == CodeAt(j) <==> i == j
  {
    PositionOfCodeAt(i);
    PositionOfCodeAt(j);
  }

  /** Every code in the dictionary lies in 1..99, so a found code is never falsy. */
  lemma CodesInRange(subject: string)
    ensures FederalCode(subject).Some? ==> 1 <= FederalCode(subject).value <= 99
  {
    if subject in FederalSubjectCodes {
      InTable(NameAt, CodeAt, Size, subject);
      EntryCodesInRange();
    }
  }

  /** No two names in the dictionary share a code. */
  lemma CodesDistinct(a: string, b: string)
    requires FederalCode(a).Some? && FederalCode(b).Some?
    ensures FederalCode(a) == FederalCode(b) <==> a == b
  {
    InTable(NameAt, CodeAt, Size, a);
    InTable(NameAt, CodeAt, Size, b);
    var i :| 0 <= i < Size && NameAt(i) == a && FederalSubjectCodes[a] == CodeAt(i);
    var j :| 0 <= j < Size && NameAt(j) == b && FederalSubjectCodes[b] == CodeAt(j);
    EntryCodesDistinct(i, j);
  }

  /** The table gives `Москва` the code 77. */
  lemma MoscowCode()
    ensures FederalCode("Москва") == Some(77)
  {
    forall j | 30 < j < 86
      ensures NameAt(j) != "Москва"
    {
      match j
        case 31 =>
        case 32 =>
        case 33 =>
        case 34 =>
        case 35 =>
        case 36 =>
        case 37 =>
        case 38 =>
        case 39 =>
        case 40 =>
        case 41 =>
        case 42 =>
        case 43 =>
        case 44 =>
        case 45 =>
        case 46 =>
        case 47 =>
        case 48 =>
        case 49 =>
        case 50 =>
        case 51 =>
        case 52 =>
        case 53 =>
        case 54 =>
        case 55 =>
        case 56 =>
        case 57 =>
        case 58 =>
        case 59 =>
        case 60 =>
        case 61 =>
        case 62 =>
        case 63 =>
        case 64 =>
        case 65 =>
        case 66 =>
        case 67 =>
        case 68 =>
        case 69 =>
        case 70 =>
        case 71 =>
        case 72 =>
        case 73 =>
        case 74 =>
        case 75 =>
        case 76 =>
        case 77 =>
        case 78 =>
        case 79 =>
        case 80 =>
        case 81 =>
        case 82 =>
        case 83 =>
        case 84 =>
        case 85 =>
    }
    LastWins(NameAt, CodeAt, 86, 30, "Москва");
  }

  /** The table gives `Санкт-Петербург` the code 78. */
  lemma SaintPetersburgCode()
    ensures FederalCode("Санкт-Петербург") == Some(78)
  {
    forall j | 64 < j < 86
      ensures NameAt(j) != "Санкт-Петербург"
    {
      match j
        case 65 =>
        case 66 =>
        case 67 =>
        case 68 =>
        case 69 =>
        case 70 =>
        case 71 =>
        case 72 =>
        case 73 =>
        case 74 =>
        case 75 =>
        case 76 =>
        case 77 =>
        case 78 =>
        case 79 =>
        case 80 =>
        case 81 =>
        case 82 =>
        case 83 =>
        case 84 =>
        case 85 =>
    }
    LastWins(NameAt, CodeAt, 86, 64, "Санкт-Петербург");
  }

  /** The table gives `Московская область` the code 50. */
  lemma MoscowRegionCode()
    ensures FederalCode("Московская область") == Some(50)
  {
    forall j | 31 < j < 86
      ensures NameAt(j) != "Московская область"
    {
      match j
        case 32 =>
        case 33 =>
        case 34 =>
        case 35 =>
        case 36 =>
        case 37 =>
        case 38 =>
        case 39 =>
        case 40 =>
        case 41 =>
        case 42 =>
        case 43 =>
        case 44 =>
        case 45 =>
        case 46 =>
        case 47 =>
        case 48 =>
        case 49 =>
        case 50 =>
        case 51 =>
        case 52 =>
        case 53 =>
        case 54 =>
        case 55 =>
        case 56 =>
        case 57 =>
        case 58 =>
        case 59 =>
        case 60 =>
        case 61 =>
        case 62 =>
        case 63 =>
        case 64 =>
        case 65 =>
        case 66 =>
        case 67 =>
        case 68 =>
        case 69 =>
        case 70 =>
        case 71 =>
        case 72 =>
        case 73 =>
        case 74 =>
        case 75 =>
        case 76 =>
        case 77 =>
        case 78 =>
        case 79 =>
        case 80 =>
        case 81 =>
        case 82 =>
        case 83 =>
        case 84 =>
        case 85 =>
    }
    LastWins(NameAt, CodeAt, 86, 31, "Московская область");
  }

  /** The table gives `Севастополь` the code 92. */
  lemma SevastopolCode()
    ensures FederalCode("Севастополь") == Some(92)
  {
    forall j | 68 < j < 86
      ensures NameAt(j) != "Севастополь"
    {
      match j
        case 69 =>
        case 70 =>
        case 71 =>
        case 72 =>
        case 73 =>
        case 74 =>
        case 75 =>
        case 76 =>
        case 77 =>
        case 78 =>
        case 79 =>
        case 80 =>
        case 81 =>
        case 82 =>
        case 83 =>
        case 84 =>
        case 85 =>
    }
    LastWins(NameAt, CodeAt, 86, 68, "Севастополь");
  }

  /** The table gives `Байконур` the code 99. */
  lemma BaikonurCode()
    ensures FederalCode("Байконур") == Some(99)
  {
    forall j | 4 < j < 86
      ensures NameAt(j) != "Байконур"
    {
      match j
        case 5 =>
        case 6 =>
        case 7 =>
        case 8 =>
        case 9 =>
        case 10 =>
        case 11 =>
        case 12 =>
        case 13 =>
        case 14 =>
        case 15 =>
        case 16 =>
        case 17 =>
        case 18 =>
        case 19 =>
        case 20 =>
        case 21 =>
        case 22 =>
        case 23 =>
        case 24 =>
        case 25 =>
        case 26 =>
        case 27 =>
        case 28 =>
        case 29 =>
        case 30 =>
        case 31 =>
        case 32 =>
        case 33 =>
        case 34 =>
        case 35 =>
        case 36 =>
        case 37 =>
        case 38 =>
        case 39 =>
        case 40 =>
        case 41 =>
        case 42 =>
        case 43 =>
        case 44 =>
        case 45 =>
        case 46 =>
        case 47 =>
        case 48 =>
        case 49 =>
        case 50 =>
        case 51 =>
        case 52 =>
        case 53 =>
        case 54 =>
        case 55 =>
        case 56 =>
        case 57 =>
        case 58 =>
        case 59 =>
        case 60 =>
        case 61 =>
        case 62 =>
        case 63 =>
        case 64 =>
        case 65 =>
        case 66 =>
        case 67 =>
        case 68 =>
        case 69 =>
        case 70 =>
        case 71 =>
        case 72 =>
        case 73 =>
        case 74 =>
        case 75 =>
        case 76 =>
        case 77 =>
        case 78 =>
        case 79 =>
        case 80 =>
        case 81 =>
        case 82 =>
        case 83 =>
        case 84 =>
        case 85 =>
    }
    LastWins(NameAt, CodeAt, 86, 4, "Байконур");
  }

  /** The abbreviation `С.-Петербург` is not a name in the table, so it has no code. */
  lemma AbbreviatedPetersburgHasNoCode()
    ensures FederalCode("С.-Петербург") == None
  {
    forall j | 0 <= j < 86
      ensures NameAt(j) != "С.-Петербург"
    {
      match j
        case 0 =>
        case 1 =>
        case 2 =>
        case 3 =>
        case 4 =>
        case 5 =>
        case 6 =>
        case 7 =>
        case 8 =>
        case 9 =>
        case 10 =>
        case 11 =>
        case 12 =>
        case 13 =>
        case 14 =>
        case 15 =>
        case 16 =>
        case 17 =>
        case 18 =>
        case 19 =>
        case 20 =>
        case 21 =>
        case 22 =>
        case 23 =>
        case 24 =>
        case 25 =>
        case 26 =>
        case 27 =>
        case 28 =>
        case 29 =>
        case 30 =>
        case 31 =>
        case 32 =>
        case 33 =>
        case 34 =>
        case 35 =>
        case 36 =>
        case 37 =>
        case 38 =>
        case 39 =>
        case 40 =>
        case 41 =>
        case 42 =>
        case 43 =>
        case 44 =>
        case 45 =>
        case 46 =>
        case 47 =>
        case 48 =>
        case 49 =>
        case 50 =>
        case 51 =>
        case 52 =>
        case 53 =>
        case 54 =>
        case 55 =>
        case 56 =>
        case 57 =>
        case 58 =>
        case 59 =>
        case 60 =>
        case 61 =>
        case 62 =>
        case 63 =>
        case 64 =>
        case 65 =>
        case 66 =>
        case 67 =>
        case 68 =>
        case 69 =>
        case 70 =>
        case 71 =>
        case 72 =>
        case 73 =>
        case 74 =>
        case 75 =>
        case 76 =>
        case 77 =>
        case 78 =>
        case 79 =>
        case 80 =>
        case 81 =>
        case 82 =>
        case 83 =>
        case 84 =>
        case 85 =>
    }
    Absent(NameAt, CodeAt, 86, "С.-Петербург");
  }
}
