/**
 * The bot's i18n layer (`src/i18n/translations.py`): the supported languages,
 * one text table per language, the in-memory per-user language preference
 * and the two-level lookup behind `get_text`.
 *
 * The tables are keyed by `TextKey`, one constructor per dictionary key, so
 * each table is a total function over the same key set by construction;
 * `KeyFromName` maps the string a caller passes back to its `TextKey`.
 */
module Translations {
  import opened Common

  /** `LANGUAGES`: the supported language codes and their display names. */
  const Languages: map<string, string> := map["pl" := "Polski", "en" := "English", "ru" := "Русский"]

  /** `DEFAULT_LANGUAGE`. */
  const DefaultLanguage: string := "pl"

  /** The language codes `TEXTS` has a table for. */
  const TableLanguages: set<string> := {"pl", "en", "ru"}

  /** The keys of the text tables; every table defines a text for each of them. */
  datatype TextKey =
    | Start
    | Help
    | LangSelect
    | LangChanged
    | Analyzing
    | StoneNotFound
    | StoneNotRecognized
    | CroppedStone
    | StoneFound
    | StoneId
    | StoneName
    | StoneDescription
    | StoneSeen
    | SendLocationPrompt
    | NewStone
    | EnterName
    | NameTooShort
    | AddDescription
    | BtnSendLocation
    | BtnEnterZip
    | BtnSkip
    | EnterZip
    | LocationPrompt
    | SavedToHistory
    | SavedNoLocation
    | StoneRegistered
    | LocationLabel
    | ZipLabel
    | CoordsLabel
    | MapCaption
    | InteractiveMap
    | MyStones
    | NoStones
    | PageInfo
    | BtnPrevPage
    | BtnNextPage
    | InfoUsage
    | InfoNotFound
    | DeleteUsage
    | DeleteNotFound
    | DeleteConfirm
    | DeleteSuccess
    | DeleteCancelled
    | BtnConfirmDelete
    | BtnCancelDelete
    | ErrorPhoto
    | ErrorGeneric
    | Cancelled

  /** The dictionary key spelling of each `TextKey`. */
  function KeyName(k: TextKey): string {
    match k
    case Start => "start"
    case Help => "help"
    case LangSelect => "lang_select"
    case LangChanged => "lang_changed"
    case Analyzing => "analyzing"
    case StoneNotFound => "stone_not_found"
    case StoneNotRecognized => "stone_not_recognized"
    case CroppedStone => "cropped_stone"
    case StoneFound => "stone_found"
    case StoneId => "stone_id"
    case StoneName => "stone_name"
    case StoneDescription => "stone_description"
    case StoneSeen => "stone_seen"
    case SendLocationPrompt => "send_location_prompt"
    case NewStone => "new_stone"
    case EnterName => "enter_name"
    case NameTooShort => "name_too_short"
    case AddDescription => "add_description"
    case BtnSendLocation => "btn_send_location"
    case BtnEnterZip => "btn_enter_zip"
    case BtnSkip => "btn_skip"
    case EnterZip => "enter_zip"
    case LocationPrompt => "location_prompt"
    case SavedToHistory => "saved_to_history"
    case SavedNoLocation => "saved_no_location"
    case StoneRegistered => "stone_registered"
    case LocationLabel => "location_label"
    case ZipLabel => "zip_label"
    case CoordsLabel => "coords_label"
    case MapCaption => "map_caption"
    case InteractiveMap => "interactive_map"
    case MyStones => "my_stones"
    case NoStones => "no_stones"
    case PageInfo => "page_info"
    case BtnPrevPage => "btn_prev_page"
    case BtnNextPage => "btn_next_page"
    case InfoUsage => "info_usage"
    case InfoNotFound => "info_not_found"
    case DeleteUsage => "delete_usage"
    case DeleteNotFound => "delete_not_found"
    case DeleteConfirm => "delete_confirm"
    case DeleteSuccess => "delete_success"
    case DeleteCancelled => "delete_cancelled"
    case BtnConfirmDelete => "btn_confirm_delete"
    case BtnCancelDelete => "btn_cancel_delete"
    case ErrorPhoto => "error_photo"
    case ErrorGeneric => "error_generic"
    case Cancelled => "cancelled"
  }

  /** The number of keys in each table. */
  const KeyCount: nat := 48

  /** The key at position `i` of the tables' order. */
  function KeyAt(i: nat): TextKey
    requires i < KeyCount
  {
    if i == 0 then Start
    else if i == 1 then Help
    else if i == 2 then LangSelect
    else if i == 3 then LangChanged
    else if i == 4 then Analyzing
    else if i == 5 then StoneNotFound
    else if i == 6 then StoneNotRecognized
    else if i == 7 then CroppedStone
    else if i == 8 then StoneFound
    else if i == 9 then StoneId
    else if i == 10 then StoneName
    else if i == 11 then StoneDescription
    else if i == 12 then StoneSeen
    else if i == 13 then SendLocationPrompt
    else if i == 14 then NewStone
    else if i == 15 then EnterName
    else if i == 16 then NameTooShort
    else if i == 17 then AddDescription
    else if i == 18 then BtnSendLocation
    else if i == 19 then BtnEnterZip
    else if i == 20 then BtnSkip
    else if i == 21 then EnterZip
    else if i == 22 then LocationPrompt
    else if i == 23 then SavedToHistory
    else if i == 24 then SavedNoLocation
    else if i == 25 then StoneRegistered
    else if i == 26 then LocationLabel
    else if i == 27 then ZipLabel
    else if i == 28 then CoordsLabel
    else if i == 29 then MapCaption
    else if i == 30 then InteractiveMap
    else if i == 31 then MyStones
    else if i == 32 then NoStones
    else if i == 33 then PageInfo
    else if i == 34 then BtnPrevPage
    else if i == 35 then BtnNextPage
    else if i == 36 then InfoUsage
    else if i == 37 then InfoNotFound
    else if i == 38 then DeleteUsage
    else if i == 39 then DeleteNotFound
    else if i == 40 then DeleteConfirm
    else if i == 41 then DeleteSuccess
    else if i == 42 then DeleteCancelled
    else if i == 43 then BtnConfirmDelete
    else if i == 44 then BtnCancelDelete
    else if i == 45 then ErrorPhoto
    else if i == 46 then ErrorGeneric
    else Cancelled
  }

  /** The position of `k` in the tables' order: every key has one. */
  function KeyIndex(k: TextKey): (i: nat)
    ensures i < KeyCount && KeyAt(i) == k
  {
    match k
    case Start => 0
    case Help => 1
    case LangSelect => 2
    case LangChanged => 3
    case Analyzing => 4
    case StoneNotFound => 5
    case StoneNotRecognized => 6
    case CroppedStone => 7
    case StoneFound => 8
    case StoneId => 9
    case StoneName => 10
    case StoneDescription => 11
    case StoneSeen => 12
    case SendLocationPrompt => 13
    case NewStone => 14
    case EnterName => 15
    case NameTooShort => 16
    case AddDescription => 17
    case BtnSendLocation => 18
    case BtnEnterZip => 19
    case BtnSkip => 20
    case EnterZip => 21
    case LocationPrompt => 22
    case SavedToHistory => 23
    case SavedNoLocation => 24
    case StoneRegistered => 25
    case LocationLabel => 26
    case ZipLabel => 27
    case CoordsLabel => 28
    case MapCaption => 29
    case InteractiveMap => 30
    case MyStones => 31
    case NoStones => 32
    case PageInfo => 33
    case BtnPrevPage => 34
    case BtnNextPage => 35
    case InfoUsage => 36
    case InfoNotFound => 37
    case DeleteUsage => 38
    case DeleteNotFound => 39
    case DeleteConfirm => 40
    case DeleteSuccess => 41
    case DeleteCancelled => 42
    case BtnConfirmDelete => 43
    case BtnCancelDelete => 44
    case ErrorPhoto => 45
    case ErrorGeneric => 46
    case Cancelled => 47
  }

  /** `TEXTS["pl"]`: the Polish table. */
  function PlText(k: TextKey): string {
    match k
    case Start => "Cześć! Jestem kamyczki-bot.\n\nWyślij mi zdjęcie kamyka:\n• Jeśli kamyk jest już zarejestrowany — pokażę informacje\n• Jeśli nowy — pomogę zarejestrować"
    case Help => "Dostępne komendy:\n/start - Rozpocznij pracę z botem\n/help - Pokaż pomoc\n/mine - Moje kamyki\n/info <id> - Informacje o kamyku\n/delete <id> - Usuń kamyk\n/lang - Zmień język\n/cancel - Anuluj bieżącą operację\n\nPo prostu wyślij zdjęcie kamyka!"
    case LangSelect => "Wybierz język:"
    case LangChanged => "Język zmieniony na Polski"
    case Analyzing => "Analizuję zdjęcie..."
    case StoneNotFound => "❌ Kamyk nie został znaleziony na zdjęciu.\n\nUpewnij się, że kamyk jest dobrze widoczny i spróbuj ponownie."
    case StoneNotRecognized => "❌ Kamyk nie został rozpoznany.\n\nUpewnij się, że na zdjęciu jest płaski kamyk z wzorem i spróbuj ponownie."
    case CroppedStone => "📷 Rozpoznany kamyk"
    case StoneFound => "✅ Kamyk znaleziony!"
    case StoneId => "🔢 ID: {id}"
    case StoneName => "📛 Nazwa: {name}"
    case StoneDescription => "📝 Opis: {description}"
    case StoneSeen => "📍 Widziany {count} raz(y)"
    case SendLocationPrompt => "\nWyślij lokalizację lub wpisz kod pocztowy:"
    case NewStone => "🆕 Nowy kamyk!"
    case EnterName => "Podaj nazwę dla kamyka:"
    case NameTooShort => "Nazwa za krótka. Podaj nazwę (minimum 2 znaki):"
    case AddDescription => "Nazwa: {name}\n\nDodać opis? (lub naciśnij «Pomiń»)"
    case BtnSendLocation => "📍 Wyślij lokalizację"
    case BtnEnterZip => "Wpisz kod pocztowy"
    case BtnSkip => "Pomiń"
    case EnterZip => "Wpisz kod pocztowy (ZIP):"
    case LocationPrompt => "Wyślij lokalizację, wpisz kod pocztowy lub naciśnij «Pomiń»."
    case SavedToHistory => "✅ Zapisano w historii!"
    case SavedNoLocation => "✅ Zapisano w historii (bez lokalizacji)!"
    case StoneRegistered => "✅ Kamyk «{name}» zarejestrowany!"
    case LocationLabel => "🗺 Lokalizacja: {location}"
    case ZipLabel => "📮 ZIP: {zip}"
    case CoordsLabel => "📍 Współrzędne: {lat:.4f}, {lon:.4f}"
    case MapCaption => "🗺 Mapa podróży\n🟢 start → 🔴 koniec"
    case InteractiveMap => "🗺 Interaktywna mapa"
    case MyStones => "🪨 Twoje kamyki:\n"
    case NoStones => "Nie masz jeszcze zarejestrowanych kamyków.\n\nWyślij zdjęcie kamyka, aby zarejestrować!"
    case PageInfo => "📄 Strona {page}/{total} (kamyków: {count})"
    case BtnPrevPage => "⬅️ Poprzednia"
    case BtnNextPage => "Następna ➡️"
    case InfoUsage => "Użycie: /info <id>\nPrzykład: /info 5"
    case InfoNotFound => "❌ Kamyk #{id} nie znaleziony."
    case DeleteUsage => "Użycie: /delete <id>\nPrzykład: /delete 5"
    case DeleteNotFound => "❌ Kamyk #{id} nie znaleziony lub nie należy do Ciebie."
    case DeleteConfirm => "Usunąć kamyk «{name}» (ID: {id})?\n\n⚠️ Ta operacja jest nieodwracalna!"
    case DeleteSuccess => "✅ Kamyk «{name}» został usunięty."
    case DeleteCancelled => "Usuwanie anulowane."
    case BtnConfirmDelete => "🗑 Tak, usuń"
    case BtnCancelDelete => "❌ Anuluj"
    case ErrorPhoto => "❌ Wystąpił błąd podczas przetwarzania zdjęcia. Spróbuj ponownie."
    case ErrorGeneric => "❌ Wystąpił błąd. Spróbuj ponownie."
    case Cancelled => "Operacja anulowana."
  }

  /** `TEXTS["en"]`: the English table. */
  function EnText(k: TextKey): string {
    match k
    case Start => "Hi! I'm kamyczki-bot.\n\nSend me a photo of a painted rock:\n• If it's already registered — I'll show info\n• If it's new — I'll help register it"
    case Help => "Available commands:\n/start - Start the bot\n/help - Show help\n/mine - My rocks\n/info <id> - Rock information\n/delete <id> - Delete a rock\n/lang - Change language\n/cancel - Cancel current operation\n\nJust send a photo of a rock!"
    case LangSelect => "Select language:"
    case LangChanged => "Language changed to English"
    case Analyzing => "Analyzing image..."
    case StoneNotFound => "❌ Rock not found in the image.\n\nMake sure the rock is clearly visible and try again."
    case StoneNotRecognized => "❌ Rock not recognized.\n\nMake sure it's a flat painted rock and try again."
    case CroppedStone => "📷 Recognized rock"
    case StoneFound => "✅ Rock found!"
    case StoneId => "🔢 ID: {id}"
    case StoneName => "📛 Name: {name}"
    case StoneDescription => "📝 Description: {description}"
    case StoneSeen => "📍 Seen {count} time(s)"
    case SendLocationPrompt => "\nSend location or enter ZIP code:"
    case NewStone => "🆕 New rock!"
    case EnterName => "Enter a name for the rock:"
    case NameTooShort => "Name too short. Enter a name (minimum 2 characters):"
    case AddDescription => "Name: {name}\n\nAdd description? (or press «Skip»)"
    case BtnSendLocation => "📍 Send location"
    case BtnEnterZip => "Enter ZIP code"
    case BtnSkip => "Skip"
    case EnterZip => "Enter ZIP code:"
    case LocationPrompt => "Send location, enter ZIP code, or press «Skip»."
    case SavedToHistory => "✅ Saved to history!"
    case SavedNoLocation => "✅ Saved to history (no location)!"
    case StoneRegistered => "✅ Rock «{name}» registered!"
    case LocationLabel => "🗺 Location: {location}"
    case ZipLabel => "📮 ZIP: {zip}"
    case CoordsLabel => "📍 Coordinates: {lat:.4f}, {lon:.4f}"
    case MapCaption => "🗺 Journey map\n🟢 start → 🔴 finish"
    case InteractiveMap => "🗺 Interactive map"
    case MyStones => "🪨 Your rocks:\n"
    case NoStones => "You don't have any registered rocks yet.\n\nSend a photo of a rock to register!"
    case PageInfo => "📄 Page {page}/{total} (rocks: {count})"
    case BtnPrevPage => "⬅️ Previous"
    case BtnNextPage => "Next ➡️"
    case InfoUsage => "Usage: /info <id>\nExample: /info 5"
    case InfoNotFound => "❌ Rock #{id} not found."
    case DeleteUsage => "Usage: /delete <id>\nExample: /delete 5"
    case DeleteNotFound => "❌ Rock #{id} not found or doesn't belong to you."
    case DeleteConfirm => "Delete rock «{name}» (ID: {id})?\n\n⚠️ This action is irreversible!"
    case DeleteSuccess => "✅ Rock «{name}» has been deleted."
    case DeleteCancelled => "Deletion cancelled."
    case BtnConfirmDelete => "🗑 Yes, delete"
    case BtnCancelDelete => "❌ Cancel"
    case ErrorPhoto => "❌ Error processing photo. Please try again."
    case ErrorGeneric => "❌ An error occurred. Please try again."
    case Cancelled => "Operation cancelled."
  }

  /** `TEXTS["ru"]`: the Russian table. */
  function RuText(k: TextKey): string {
    match k
    case Start => "Привет! Я kamyczki-bot.\n\nОтправь мне фото камня:\n• Если камень уже зарегистрирован — покажу информацию\n• Если новый — помогу зарегистрировать"
    case Help => "Доступные команды:\n/start - Начать работу с ботом\n/help - Показать справку\n/mine - Мои камни\n/info <id> - Информация о камне\n/delete <id> - Удалить камень\n/lang - Сменить язык\n/cancel - Отменить текущую операцию\n\nПросто отправь фото камня!"
    case LangSelect => "Выберите язык:"
    case LangChanged => "Язык изменён на Русский"
    case Analyzing => "Анализирую изображение..."
    case StoneNotFound => "❌ Камень не найден на изображении.\n\nУбедитесь, что камень хорошо виден на фото и попробуйте снова."
    case StoneNotRecognized => "❌ Камень не распознан.\n\nУбедитесь, что на фото плоский камень с рисунком, и попробуйте снова."
    case CroppedStone => "📷 Распознанный камень"
    case StoneFound => "✅ Камень найден!"
    case StoneId => "🔢 ID: {id}"
    case StoneName => "📛 Имя: {name}"
    case StoneDescription => "📝 Описание: {description}"
    case StoneSeen => "📍 Замечен {count} раз(а)"
    case SendLocationPrompt => "\nОтправь геолокацию или введи ZIP код:"
    case NewStone => "🆕 Новый камень!"
    case EnterName => "Введите имя для камня:"
    case NameTooShort => "Имя слишком короткое. Введите имя (минимум 2 символа):"
    case AddDescription => "Имя: {name}\n\nДобавить описание? (или нажми «Пропустить»)"
    case BtnSendLocation => "📍 Отправить местоположение"
    case BtnEnterZip => "Ввести ZIP код"
    case BtnSkip => "Пропустить"
    case EnterZip => "Введи почтовый индекс (ZIP код):"
    case LocationPrompt => "Отправь геолокацию, введи ZIP код или нажми «Пропустить»."
    case SavedToHistory => "✅ Сохранено в истории!"
    case SavedNoLocation => "✅ Сохранено в истории (без местоположения)!"
    case StoneRegistered => "✅ Камень «{name}» зарегистрирован!"
    case LocationLabel => "🗺 Местоположение: {location}"
    case ZipLabel => "📮 ZIP: {zip}"
    case CoordsLabel => "📍 Координаты: {lat:.4f}, {lon:.4f}"
    case MapCaption => "🗺 Карта перемещений\n🟢 старт → 🔴 финиш"
    case InteractiveMap => "🗺 Интерактивная карта"
    case MyStones => "🪨 Твои камни:\n"
    case NoStones => "У тебя пока нет зарегистрированных камней.\n\nОтправь фото камня, чтобы зарегистрировать!"
    case PageInfo => "📄 Страница {page}/{total} (камней: {count})"
    case BtnPrevPage => "⬅️ Назад"
    case BtnNextPage => "Вперёд ➡️"
    case InfoUsage => "Использование: /info <id>\nПример: /info 5"
    case InfoNotFound => "❌ Камень #{id} не найден."
    case DeleteUsage => "Использование: /delete <id>\nПример: /delete 5"
    case DeleteNotFound => "❌ Камень #{id} не найден или не принадлежит тебе."
    case DeleteConfirm => "Удалить камень «{name}» (ID: {id})?\n\n⚠️ Это действие необратимо!"
    case DeleteSuccess => "✅ Камень «{name}» удалён."
    case DeleteCancelled => "Удаление отменено."
    case BtnConfirmDelete => "🗑 Да, удалить"
    case BtnCancelDelete => "❌ Отмена"
    case ErrorPhoto => "❌ Произошла ошибка при обработке фото. Попробуйте снова."
    case ErrorGeneric => "❌ Произошла ошибка. Попробуйте снова."
    case Cancelled => "Операция отменена."
  }

  /** The first key at position `from` or later spelled `name`. */
  function FindKey(name: string, from: nat): (k: Option<TextKey>)
    requires from <= KeyCount
    ensures k.Some? ==> KeyName(k.value) == name
    ensures k.None? ==> forall j :: from <= j < KeyCount ==> KeyName(KeyAt(j)) != name
    decreases KeyCount - from
  {
    if from == KeyCount then None
    else if KeyName(KeyAt(from)) == name then Some(KeyAt(from))
    else
      var rest := FindKey(name, from + 1);
      assert rest.None? ==> forall j :: from < j < KeyCount ==> KeyName(KeyAt(j)) != name;
      rest
  }

  /** The table key spelled `name`, or None when no table has such a key. */
  function KeyFromName(name: string): (k: Option<TextKey>)
    ensures k.Some? ==> KeyName(k.value) == name
    ensures k.None? ==> forall j: TextKey :: KeyName(j) != name
  {
    var k := FindKey(name, 0);
    assert k.None? ==> forall j: TextKey :: KeyName(j) != name by {
      if k.None? {
        forall j: TextKey ensures KeyName(j) != name {
          var _ := KeyIndex(j);
        }
      }
    }
    k
  }

  /** `TEXTS[table][KeyName(k)]` for a code that has a table. */
  function TableText(table: string, k: TextKey): string
    requires table in TableLanguages
  {
    if table == "pl" then PlText(k) else if table == "en" then EnText(k) else RuText(k)
  }

  /** `TEXTS.get(lang, TEXTS[DEFAULT_LANGUAGE])`: the table consulted for `lang`. */
  function TableFor(lang: string): (table: string)
    ensures table in TableLanguages
    ensures lang in TableLanguages ==> table == lang
    ensures lang !in TableLanguages ==> table == DefaultLanguage
  {
    if lang in TableLanguages then lang else DefaultLanguage
  }

  /**
   * `get_text` for a language code, without formatting arguments: the text
   * of a known key in the table for `lang`, or the key itself when no table
   * has it.
   */
  function Translate(lang: string, key: string): (text: string)
    ensures (forall k: TextKey :: KeyName(k) != key) ==> text == key
    ensures forall k: TextKey :: KeyName(k) == key && KeyFromName(key) == Some(k)
              ==> text == TableText(TableFor(lang), k)
  {
    match KeyFromName(key)
    case None => key
    case Some(k) => TableText(TableFor(lang), k)
  }

  /** Lemma: every key has a text in every table, and the first key so spelled is the one used. */
  lemma KeyFound(lang: string, k: TextKey)
    ensures KeyFromName(KeyName(k)).Some?
    ensures Translate(lang, KeyName(k)) == TableText(TableFor(lang), KeyFromName(KeyName(k)).value)
  {
    var _ := KeyIndex(k);
  }

  /** Lemma: exactly the supported languages have a table. */
  lemma TablesMatchLanguages()
    ensures Languages.Keys == TableLanguages
  {
    assert "pl" in Languages && "en" in Languages && "ru" in Languages;
  }

  /** The search for `name` passes over positions whose key is spelled differently. */
  lemma {:induction false} FindKeyPasses(name: string, from: nat, to: nat)
    requires from <= to <= KeyCount
    requires forall j :: from <= j < to ==> KeyName(KeyAt(j)) != name
    ensures FindKey(name, from) == FindKey(name, to)
  {
    if from < to {
      FindKeyPasses(name, from, to - 1);
      assert KeyName(KeyAt(to - 1)) != name;
    }
  }

  /** Lemma: a name that finds a key reads that key's text from the table of a supported language. */
  lemma TextOfKey(lang: string, name: string, k: TextKey)
    requires lang in TableLanguages && KeyFromName(name) == Some(k)
    ensures Translate(lang, name) == TableText(lang, k)
  {
  }

  /** Lemma: the search for `name` finds the key at position `KeyIndex(k)` when no earlier key is so spelled. */
  lemma FindsKey(name: string, k: TextKey)
    requires KeyName(k) == name
    requires forall j :: 0 <= j < KeyIndex(k) ==> KeyName(KeyAt(j)) != name
    ensures KeyFromName(name) == Some(k)
  {
    FindKeyPasses(name, 0, KeyIndex(k));
  }

  /** Lemma: the localized "skip" button label (`btn_skip`) in each table. */
  lemma SkipLabels()
    ensures KeyFromName("btn_skip") == Some(BtnSkip)
    ensures Translate("pl", "btn_skip") == "Pomiń"
    ensures Translate("en", "btn_skip") == "Skip"
    ensures Translate("ru", "btn_skip") == "Пропустить"
  {
    forall j | 0 <= j < KeyIndex(BtnSkip) ensures KeyName(KeyAt(j)) != "btn_skip" {
    }
    FindsKey("btn_skip", BtnSkip);
    TextOfKey("pl", "btn_skip", BtnSkip);
    TextOfKey("en", "btn_skip", BtnSkip);
    TextOfKey("ru", "btn_skip", BtnSkip);
  }

  /** Lemma: the localized "enter ZIP code" button label (`btn_enter_zip`) in each table. */
  lemma ZipLabels()
    ensures KeyFromName("btn_enter_zip") == Some(BtnEnterZip)
    ensures Translate("pl", "btn_enter_zip") == "Wpisz kod pocztowy"
    ensures Translate("en", "btn_enter_zip") == "Enter ZIP code"
    ensures Translate("ru", "btn_enter_zip") == "Ввести ZIP код"
  {
    forall j | 0 <= j < KeyIndex(BtnEnterZip) ensures KeyName(KeyAt(j)) != "btn_enter_zip" {
    }
    FindsKey("btn_enter_zip", BtnEnterZip);
    TextOfKey("pl", "btn_enter_zip", BtnEnterZip);
    TextOfKey("en", "btn_enter_zip", BtnEnterZip);
    TextOfKey("ru", "btn_enter_zip", BtnEnterZip);
  }

  /**
   * The in-memory preference map `_user_languages` with its accessors; it
   * starts empty and lives as long as the process.
   */
  class LanguagePreferences {
    var userLanguages: map<int, string>

    /** Every stored code is a supported language. */
    ghost predicate Valid()
      reads this
    {
      forall u :: u in userLanguages ==> userLanguages[u] in Languages
    }

    constructor ()
      ensures userLanguages == map[] && Valid()
    {
      userLanguages := map[];
    }

    /** `get_user_language`: the stored code, or "pl" for a user who never chose one. */
    function GetUserLanguage(userId: int): (lang: string)
      reads this
      ensures userId in userLanguages ==> lang == userLanguages[userId]
      ensures userId !in userLanguages ==> lang == DefaultLanguage
      ensures Valid() ==> lang in Languages
    {
      if userId in userLanguages then userLanguages[userId] else DefaultLanguage
    }

    /** `set_user_language`: stores `lang` for the user only when it is a supported code. */
    method SetUserLanguage(userId: int, lang: string)
      modifies this
      ensures lang in Languages ==> userLanguages == old(userLanguages)[userId := lang]
      ensures lang !in Languages ==> userLanguages == old(userLanguages)
      ensures lang in Languages ==> GetUserLanguage(userId) == lang
      ensures forall u :: u != userId ==> GetUserLanguage(u) == old(GetUserLanguage(u))
      ensures old(Valid()) ==> Valid()
    {
      if lang in Languages {
        userLanguages := userLanguages[userId := lang];
      }
    }

    /** `get_text(key, user_id)` without formatting arguments. */
    function GetText(key: string, userId: int): (text: string)
      reads this
      ensures text == Translate(GetUserLanguage(userId), key)
      ensures Valid() ==> TableFor(GetUserLanguage(userId)) == GetUserLanguage(userId)
    {
      TablesMatchLanguages();
      Translate(GetUserLanguage(userId), key)
    }
  }
}
