// The two literal method-documentation tables of language.js, methodDocsEn
// (language.js:25-277) and methodDocsTr (language.js:280-525), and the choice
// between them by language code (getMethodDocs, language.js:528-530).
//
// Each table is one object literal. Its keys are unique, so reading
// `table[key]` finds at most one entry. The model splits each literal into the
// sections that the comments of methodDocsEn mark (Array, String, Object, Map,
// Set, Math, Number). methodDocsTr lists the same keys in the same order, so
// it splits the same way. A lookup tries the sections in source order.
module MethodDocs {
  import opened Wrappers

  /** One table entry: `{ desc, mdn }`. */
  datatype DocEntry = DocEntry(desc: string, mdn: string)

  /** The two tables the page carries. */
  datatype DocTable = English | Turkish

  /** The Array entries of the English table (language.js:27-110). */
  function ArrayDocsEn(key: string): Option<DocEntry> {
    match key
    case "push" => Some(DocEntry("Adds one or more elements to the end of an array and returns the new length.", "https://developer.mozilla.org/en-US/docs/Web/JavaScript/Reference/Global_Objects/Array/push"))
    case "pop" => Some(DocEntry("Removes the last element from an array and returns that element.", "https://developer.mozilla.org/en-US/docs/Web/JavaScript/Reference/Global_Objects/Array/pop"))
    case "unshift" => Some(DocEntry("Adds one or more elements to the beginning of an array and returns the new length.", "https://developer.mozilla.org/en-US/docs/Web/JavaScript/Reference/Global_Objects/Array/unshift"))
    case "shift" => Some(DocEntry("Removes the first element from an array and returns that element.", "https://developer.mozilla.org/en-US/docs/Web/JavaScript/Reference/Global_Objects/Array/shift"))
    case "splice" => Some(DocEntry("Changes the contents of an array by removing or replacing existing elements and/or adding new elements.", "https://developer.mozilla.org/en-US/docs/Web/JavaScript/Reference/Global_Objects/Array/splice"))
    case "indexOf" => Some(DocEntry("Returns the first index at which a given element can be found in the array, or -1 if not present.", "https://developer.mozilla.org/en-US/docs/Web/JavaScript/Reference/Global_Objects/Array/indexOf"))
    case "lastIndexOf" => Some(DocEntry("Returns the last index at which a given element can be found in the array, or -1 if not present.", "https://developer.mozilla.org/en-US/docs/Web/JavaScript/Reference/Global_Objects/Array/lastIndexOf"))
    case "includes" => Some(DocEntry("Determines whether an array includes a certain value, returning true or false.", "https://developer.mozilla.org/en-US/docs/Web/JavaScript/Reference/Global_Objects/Array/includes"))
    case "find" => Some(DocEntry("Returns the first element in the array that satisfies the provided testing function.", "https://developer.mozilla.org/en-US/docs/Web/JavaScript/Reference/Global_Objects/Array/find"))
    case "findIndex" => Some(DocEntry("Returns the index of the first element in the array that satisfies the provided testing function.", "https://developer.mozilla.org/en-US/docs/Web/JavaScript/Reference/Global_Objects/Array/findIndex"))
    case "map" => Some(DocEntry("Creates a new array populated with the results of calling a provided function on every element.", "https://developer.mozilla.org/en-US/docs/Web/JavaScript/Reference/Global_Objects/Array/map"))
    case "filter" => Some(DocEntry("Creates a new array with all elements that pass the test implemented by the provided function.", "https://developer.mozilla.org/en-US/docs/Web/JavaScript/Reference/Global_Objects/Array/filter"))
    case "reduce" => Some(DocEntry("Executes a reducer function on each element, resulting in a single output value.", "https://developer.mozilla.org/en-US/docs/Web/JavaScript/Reference/Global_Objects/Array/reduce"))
    case "flat" => Some(DocEntry("Creates a new array with all sub-array elements concatenated into it recursively up to the specified depth.", "https://developer.mozilla.org/en-US/docs/Web/JavaScript/Reference/Global_Objects/Array/flat"))
    case "sort" => Some(DocEntry("Sorts the elements of an array in place and returns the sorted array.", "https://developer.mozilla.org/en-US/docs/Web/JavaScript/Reference/Global_Objects/Array/sort"))
    case "slice" => Some(DocEntry("Returns a shallow copy of a portion of an array into a new array object.", "https://developer.mozilla.org/en-US/docs/Web/JavaScript/Reference/Global_Objects/Array/slice"))
    case "concat" => Some(DocEntry("Merges two or more arrays, returning a new array without modifying existing arrays.", "https://developer.mozilla.org/en-US/docs/Web/JavaScript/Reference/Global_Objects/Array/concat"))
    case "join" => Some(DocEntry("Creates and returns a new string by concatenating all elements in an array, separated by a specified separator.", "https://developer.mozilla.org/en-US/docs/Web/JavaScript/Reference/Global_Objects/Array/join"))
    case "every" => Some(DocEntry("Tests whether all elements in the array pass the test implemented by the provided function.", "https://developer.mozilla.org/en-US/docs/Web/JavaScript/Reference/Global_Objects/Array/every"))
    case "some" => Some(DocEntry("Tests whether at least one element in the array passes the test implemented by the provided function.", "https://developer.mozilla.org/en-US/docs/Web/JavaScript/Reference/Global_Objects/Array/some"))
    case "Array.from" => Some(DocEntry("Creates a new, shallow-copied Array instance from an iterable or array-like object.", "https://developer.mozilla.org/en-US/docs/Web/JavaScript/Reference/Global_Objects/Array/from"))
    case _ => None
  }

  /** The Array entries of the Turkish table (language.js:281-364). */
  function ArrayDocsTr(key: string): Option<DocEntry> {
    match key
    case "push" => Some(DocEntry("Bir dizinin sonuna bir veya daha fazla öğe ekler ve yeni uzunluğu döndürür.", "https://developer.mozilla.org/en-US/docs/Web/JavaScript/Reference/Global_Objects/Array/push"))
    case "pop" => Some(DocEntry("Bir diziden son öğeyi kaldırır ve o öğeyi döndürür.", "https://developer.mozilla.org/en-US/docs/Web/JavaScript/Reference/Global_Objects/Array/pop"))
    case "unshift" => Some(DocEntry("Bir dizinin başına bir veya daha fazla öğe ekler ve yeni uzunluğu döndürür.", "https://developer.mozilla.org/en-US/docs/Web/JavaScript/Reference/Global_Objects/Array/unshift"))
    case "shift" => Some(DocEntry("Bir diziden ilk öğeyi kaldırır ve o öğeyi döndürür.", "https://developer.mozilla.org/en-US/docs/Web/JavaScript/Reference/Global_Objects/Array/shift"))
    case "splice" => Some(DocEntry("Mevcut öğeleri kaldırarak veya değiştirerek ve/veya yeni öğeler ekleyerek bir dizinin içeriğini değiştirir.", "https://developer.mozilla.org/en-US/docs/Web/JavaScript/Reference/Global_Objects/Array/splice"))
    case "indexOf" => Some(DocEntry("Bir dizide belirli bir öğenin bulunabileceği ilk dizini döndürür veya yoksa -1 döndürür.", "https://developer.mozilla.org/en-US/docs/Web/JavaScript/Reference/Global_Objects/Array/indexOf"))
    case "lastIndexOf" => Some(DocEntry("Bir dizide belirli bir öğenin bulunabileceği son dizini döndürür veya yoksa -1 döndürür.", "https://developer.mozilla.org/en-US/docs/Web/JavaScript/Reference/Global_Objects/Array/lastIndexOf"))
    case "includes" => Some(DocEntry("Bir dizinin belirli bir değeri içerip içermediğini belirler, true veya false döndürür.", "https://developer.mozilla.org/en-US/docs/Web/JavaScript/Reference/Global_Objects/Array/includes"))
    case "find" => Some(DocEntry("Sağlanan test fonksiyonunu karşılayan dizideki ilk öğeyi döndürür.", "https://developer.mozilla.org/en-US/docs/Web/JavaScript/Reference/Global_Objects/Array/find"))
    case "findIndex" => Some(DocEntry("Sağlanan test fonksiyonunu karşılayan dizideki ilk öğenin dizinini döndürür.", "https://developer.mozilla.org/en-US/docs/Web/JavaScript/Reference/Global_Objects/Array/findIndex"))
    case "map" => Some(DocEntry("Her öğe üzerinde sağlanan bir fonksiyonu çağırmanın sonuçlarıyla doldurulmuş yeni bir dizi oluşturur.", "https://developer.mozilla.org/en-US/docs/Web/JavaScript/Reference/Global_Objects/Array/map"))
    case "filter" => Some(DocEntry("Sağlanan fonksiyon tarafından uygulanan testi geçen tüm öğelerle yeni bir dizi oluşturur.", "https://developer.mozilla.org/en-US/docs/Web/JavaScript/Reference/Global_Objects/Array/filter"))
    case "reduce" => Some(DocEntry("Her öğe üzerinde bir azaltıcı fonksiyon çalıştırır, tek bir çıktı değeriyle sonuçlanır.", "https://developer.mozilla.org/en-US/docs/Web/JavaScript/Reference/Global_Objects/Array/reduce"))
    case "flat" => Some(DocEntry("Belirtilen derinliğe kadar tüm alt dizi öğelerini içine alarak yeni bir dizi oluşturur.", "https://developer.mozilla.org/en-US/docs/Web/JavaScript/Reference/Global_Objects/Array/flat"))
    case "sort" => Some(DocEntry("Bir dizinin öğelerini yerinde sıralar ve sıralanmış diziyi döndürür.", "https://developer.mozilla.org/en-US/docs/Web/JavaScript/Reference/Global_Objects/Array/sort"))
    case "slice" => Some(DocEntry("Bir dizinin bir bölümünün sığ bir kopyasını yeni bir dizi nesnesine döndürür.", "https://developer.mozilla.org/en-US/docs/Web/JavaScript/Reference/Global_Objects/Array/slice"))
    case "concat" => Some(DocEntry("İki veya daha fazla diziyi birleştirir, mevcut dizileri değiştirmeden yeni bir dizi döndürür.", "https://developer.mozilla.org/en-US/docs/Web/JavaScript/Reference/Global_Objects/Array/concat"))
    case "join" => Some(DocEntry("Bir dizideki tüm öğeleri belirtilen bir ayırıcıyla birleştirerek yeni bir dize oluşturur ve döndürür.", "https://developer.mozilla.org/en-US/docs/Web/JavaScript/Reference/Global_Objects/Array/join"))
    case "every" => Some(DocEntry("Dizideki tüm öğelerin sağlanan fonksiyon tarafından uygulanan testi geçip geçmediğini test eder.", "https://developer.mozilla.org/en-US/docs/Web/JavaScript/Reference/Global_Objects/Array/every"))
    case "some" => Some(DocEntry("Dizideki en az bir öğenin sağlanan fonksiyon tarafından uygulanan testi geçip geçmediğini test eder.", "https://developer.mozilla.org/en-US/docs/Web/JavaScript/Reference/Global_Objects/Array/some"))
    case "Array.from" => Some(DocEntry("Yinelenebilir veya dizi benzeri bir nesneden yeni, sığ kopyalanmış bir Dizi örneği oluşturur.", "https://developer.mozilla.org/en-US/docs/Web/JavaScript/Reference/Global_Objects/Array/from"))
    case _ => None
  }

  /** The Array sections of the two tables list the same keys with the same links. */
  lemma ArraySectionsAgree(key: string)
    ensures Link(ArrayDocsEn(key)) == Link(ArrayDocsTr(key))
  {
  }

  /** The String entries of the English table (language.js:112-159). */
  function StringDocsEn(key: string): Option<DocEntry> {
    match key
    case "charAt" => Some(DocEntry("Returns the character at the specified index in a string.", "https://developer.mozilla.org/en-US/docs/Web/JavaScript/Reference/Global_Objects/String/charAt"))
    case "charCodeAt" => Some(DocEntry("Returns an integer between 0 and 65535 representing the UTF-16 code unit at the given index.", "https://developer.mozilla.org/en-US/docs/Web/JavaScript/Reference/Global_Objects/String/charCodeAt"))
    case "toLowerCase" => Some(DocEntry("Returns the calling string value converted to lower case.", "https://developer.mozilla.org/en-US/docs/Web/JavaScript/Reference/Global_Objects/String/toLowerCase"))
    case "trim" => Some(DocEntry("Removes whitespace from both ends of a string and returns a new string.", "https://developer.mozilla.org/en-US/docs/Web/JavaScript/Reference/Global_Objects/String/trim"))
    case "replace" => Some(DocEntry("Returns a new string with some or all matches of a pattern replaced by a replacement.", "https://developer.mozilla.org/en-US/docs/Web/JavaScript/Reference/Global_Objects/String/replace"))
    case "repeat" => Some(DocEntry("Constructs and returns a new string which contains the specified number of copies of the string.", "https://developer.mozilla.org/en-US/docs/Web/JavaScript/Reference/Global_Objects/String/repeat"))
    case "padStart" => Some(DocEntry("Pads the current string with another string (multiple times, if needed) until the resulting string reaches the given length.", "https://developer.mozilla.org/en-US/docs/Web/JavaScript/Reference/Global_Objects/String/padStart"))
    case "startsWith" => Some(DocEntry("Determines whether a string begins with the characters of a specified string.", "https://developer.mozilla.org/en-US/docs/Web/JavaScript/Reference/Global_Objects/String/startsWith"))
    case "endsWith" => Some(DocEntry("Determines whether a string ends with the characters of a specified string.", "https://developer.mozilla.org/en-US/docs/Web/JavaScript/Reference/Global_Objects/String/endsWith"))
    case "split" => Some(DocEntry("Divides a String into an ordered list of substrings, puts these substrings into an array, and returns the array.", "https://developer.mozilla.org/en-US/docs/Web/JavaScript/Reference/Global_Objects/String/split"))
    case "match" => Some(DocEntry("Retrieves the result of matching a string against a regular expression.", "https://developer.mozilla.org/en-US/docs/Web/JavaScript/Reference/Global_Objects/String/match"))
    case "search" => Some(DocEntry("Executes a search for a match between a regular expression and this String object.", "https://developer.mozilla.org/en-US/docs/Web/JavaScript/Reference/Global_Objects/String/search"))
    case _ => None
  }

  /** The String entries of the Turkish table (language.js:365-412). */
  function StringDocsTr(key: string): Option<DocEntry> {
    match key
    case "charAt" => Some(DocEntry("Bir dizgede belirtilen dizindeki karakteri döndürür.", "https://developer.mozilla.org/en-US/docs/Web/JavaScript/Reference/Global_Objects/String/charAt"))
    case "charCodeAt" => Some(DocEntry("Verilen dizindeki UTF-16 kod birimini temsil eden 0 ile 65535 arasında bir tam sayı döndürür.", "https://developer.mozilla.org/en-US/docs/Web/JavaScript/Reference/Global_Objects/String/charCodeAt"))
    case "toLowerCase" => Some(DocEntry("Çağrılan dize değerini küçük harfe dönüştürür ve döndürür.", "https://developer.mozilla.org/en-US/docs/Web/JavaScript/Reference/Global_Objects/String/toLowerCase"))
    case "trim" => Some(DocEntry("Bir dizgenin her iki ucundaki boşlukları kaldırır ve yeni bir dize döndürür.", "https://developer.mozilla.org/en-US/docs/Web/JavaScript/Reference/Global_Objects/String/trim"))
    case "replace" => Some(DocEntry("Bir desenle eşleşenlerin bazılarını veya tamamını bir değiştirme ile değiştirerek yeni bir dize döndürür.", "https://developer.mozilla.org/en-US/docs/Web/JavaScript/Reference/Global_Objects/String/replace"))
    case "repeat" => Some(DocEntry("Belirtilen sayıda kopya içeren yeni bir dize oluşturur ve döndürür.", "https://developer.mozilla.org/en-US/docs/Web/JavaScript/Reference/Global_Objects/String/repeat"))
    case "padStart" => Some(DocEntry("Mevcut dizeyi başka bir dizeyle (gerekirse birden çok kez) doldurur, sonuçlanan dize verilen uzunluğa ulaşana kadar.", "https://developer.mozilla.org/en-US/docs/Web/JavaScript/Reference/Global_Objects/String/padStart"))
    case "startsWith" => Some(DocEntry("Bir dizgenin belirtilen bir dizenin karakterleriyle başlayıp başlamadığını belirler.", "https://developer.mozilla.org/en-US/docs/Web/JavaScript/Reference/Global_Objects/String/startsWith"))
    case "endsWith" => Some(DocEntry("Bir dizgenin belirtilen bir dizenin karakterleriyle bitip bitmediğini belirler.", "https://developer.mozilla.org/en-US/docs/Web/JavaScript/Reference/Global_Objects/String/endsWith"))
    case "split" => Some(DocEntry("Bir Dizeyi sıralı bir alt dize listesine böler, bunları bir dizye koyar ve diziyi döndürür.", "https://developer.mozilla.org/en-US/docs/Web/JavaScript/Reference/Global_Objects/String/split"))
    case "match" => Some(DocEntry("Bir dizeyi düzenli bir ifadeyle eşleştirmenin sonucunu alır.", "https://developer.mozilla.org/en-US/docs/Web/JavaScript/Reference/Global_Objects/String/match"))
    case "search" => Some(DocEntry("Bir düzenli ifade ile bu Dize nesnesi arasında bir eşleşme araması yürütür.", "https://developer.mozilla.org/en-US/docs/Web/JavaScript/Reference/Global_Objects/String/search"))
    case _ => None
  }

  /** The String sections of the two tables list the same keys with the same links. */
  lemma StringSectionsAgree(key: string)
    ensures Link(StringDocsEn(key)) == Link(StringDocsTr(key))
  {
  }

  /** The Object entries of the English table (language.js:161-184). */
  function ObjectDocsEn(key: string): Option<DocEntry> {
    match key
    case "Object.keys" => Some(DocEntry("Returns an array of a given object's own enumerable property names.", "https://developer.mozilla.org/en-US/docs/Web/JavaScript/Reference/Global_Objects/Object/keys"))
    case "Object.values" => Some(DocEntry("Returns an array of a given object's own enumerable property values.", "https://developer.mozilla.org/en-US/docs/Web/JavaScript/Reference/Global_Objects/Object/values"))
    case "Object.entries" => Some(DocEntry("Returns an array of a given object's own enumerable string-keyed property [key, value] pairs.", "https://developer.mozilla.org/en-US/docs/Web/JavaScript/Reference/Global_Objects/Object/entries"))
    case "Object.fromEntries" => Some(DocEntry("Transforms a list of key-value pairs into an object.", "https://developer.mozilla.org/en-US/docs/Web/JavaScript/Reference/Global_Objects/Object/fromEntries"))
    case "Object.assign" => Some(DocEntry("Copies all enumerable own properties from one or more source objects to a target object.", "https://developer.mozilla.org/en-US/docs/Web/JavaScript/Reference/Global_Objects/Object/assign"))
    case "hasOwnProperty" => Some(DocEntry("Returns a boolean indicating whether the object has the specified property as its own property.", "https://developer.mozilla.org/en-US/docs/Web/JavaScript/Reference/Global_Objects/Object/hasOwnProperty"))
    case _ => None
  }

  /** The Object entries of the Turkish table (language.js:413-436). */
  function ObjectDocsTr(key: string): Option<DocEntry> {
    match key
    case "Object.keys" => Some(DocEntry("Belirli bir nesnenin kendi numaralandırılabilir özellik adlarının bir dizisini döndürür.", "https://developer.mozilla.org/en-US/docs/Web/JavaScript/Reference/Global_Objects/Object/keys"))
    case "Object.values" => Some(DocEntry("Belirli bir nesnenin kendi numaralandırılabilir özellik değerlerinin bir dizisini döndürür.", "https://developer.mozilla.org/en-US/docs/Web/JavaScript/Reference/Global_Objects/Object/values"))
    case "Object.entries" => Some(DocEntry("Belirli bir nesnenin kendi numaralandırılabilir dize anahtarlı özellik [anahtar, değer] çiftlerinin bir dizisini döndürür.", "https://developer.mozilla.org/en-US/docs/Web/JavaScript/Reference/Global_Objects/Object/entries"))
    case "Object.fromEntries" => Some(DocEntry("Anahtar-değer çiftleri listesini bir nesneye dönüştürür.", "https://developer.mozilla.org/en-US/docs/Web/JavaScript/Reference/Global_Objects/Object/fromEntries"))
    case "Object.assign" => Some(DocEntry("Bir veya daha fazla kaynak nesneden tüm numaralandırılabilir kendi özelliklerini bir hedef nesneye kopyalar.", "https://developer.mozilla.org/en-US/docs/Web/JavaScript/Reference/Global_Objects/Object/assign"))
    case "hasOwnProperty" => Some(DocEntry("Nesnenin belirtilen özelliği kendi özelliği olarak sahip olup olmadığını gösteren bir boolean döndürür.", "https://developer.mozilla.org/en-US/docs/Web/JavaScript/Reference/Global_Objects/Object/hasOwnProperty"))
    case _ => None
  }

  /** The Object sections of the two tables list the same keys with the same links. */
  lemma ObjectSectionsAgree(key: string)
    ensures Link(ObjectDocsEn(key)) == Link(ObjectDocsTr(key))
  {
  }

  /** The Map entries of the English table (language.js:186-205). */
  function MapDocsEn(key: string): Option<DocEntry> {
    match key
    case "Map" => Some(DocEntry("The Map object holds key-value pairs and remembers the original insertion order of the keys.", "https://developer.mozilla.org/en-US/docs/Web/JavaScript/Reference/Global_Objects/Map"))
    case "set" => Some(DocEntry("Sets the value for the key in the Map object. Returns the Map object.", "https://developer.mozilla.org/en-US/docs/Web/JavaScript/Reference/Global_Objects/Map/set"))
    case "get" => Some(DocEntry("Returns the value associated with the key, or undefined if there is none.", "https://developer.mozilla.org/en-US/docs/Web/JavaScript/Reference/Global_Objects/Map/get"))
    case "has" => Some(DocEntry("Returns a boolean indicating whether an element with the specified key exists or not.", "https://developer.mozilla.org/en-US/docs/Web/JavaScript/Reference/Global_Objects/Map/has"))
    case "delete" => Some(DocEntry("Removes the specified element from a Map object by key.", "https://developer.mozilla.org/en-US/docs/Web/JavaScript/Reference/Global_Objects/Map/delete"))
    case _ => None
  }

  /** The Map entries of the Turkish table (language.js:437-456). */
  function MapDocsTr(key: string): Option<DocEntry> {
    match key
    case "Map" => Some(DocEntry("Map nesnesi anahtar-değer çiftlerini tutar ve anahtarların orijinal ekleme sırasını hatırlar.", "https://developer.mozilla.org/en-US/docs/Web/JavaScript/Reference/Global_Objects/Map"))
    case "set" => Some(DocEntry("Map nesnesindeki anahtar için değeri ayarlar. Map nesnesini döndürür.", "https://developer.mozilla.org/en-US/docs/Web/JavaScript/Reference/Global_Objects/Map/set"))
    case "get" => Some(DocEntry("Anahtarla ilişkili değeri döndürür veya yoksa undefined döndürür.", "https://developer.mozilla.org/en-US/docs/Web/JavaScript/Reference/Global_Objects/Map/get"))
    case "has" => Some(DocEntry("Belirtilen anahtara sahip bir öğenin var olup olmadığını gösteren bir boolean döndürür.", "https://developer.mozilla.org/en-US/docs/Web/JavaScript/Reference/Global_Objects/Map/has"))
    case "delete" => Some(DocEntry("Bir Map nesnesinden anahtara göre belirtilen öğeyi kaldırır.", "https://developer.mozilla.org/en-US/docs/Web/JavaScript/Reference/Global_Objects/Map/delete"))
    case _ => None
  }

  /** The Map sections of the two tables list the same keys with the same links. */
  lemma MapSectionsAgree(key: string)
    ensures Link(MapDocsEn(key)) == Link(MapDocsTr(key))
  {
  }

  /** The Set entries of the English table (language.js:207-214). */
  function SetDocsEn(key: string): Option<DocEntry> {
    match key
    case "Set" => Some(DocEntry("The Set object lets you store unique values of any type, whether primitive values or object references.", "https://developer.mozilla.org/en-US/docs/Web/JavaScript/Reference/Global_Objects/Set"))
    case "add" => Some(DocEntry("Appends a new element with a specified value to the end of a Set object.", "https://developer.mozilla.org/en-US/docs/Web/JavaScript/Reference/Global_Objects/Set/add"))
    case _ => None
  }

  /** The Set entries of the Turkish table (language.js:457-464). */
  function SetDocsTr(key: string): Option<DocEntry> {
    match key
    case "Set" => Some(DocEntry("Set nesnesi, ilkel değerler veya nesne referansları olsun, herhangi bir türden benzersiz değerleri saklamanıza izin verir.", "https://developer.mozilla.org/en-US/docs/Web/JavaScript/Reference/Global_Objects/Set"))
    case "add" => Some(DocEntry("Belirtilen bir değere sahip yeni bir öğeyi bir Set nesnesinin sonuna ekler.", "https://developer.mozilla.org/en-US/docs/Web/JavaScript/Reference/Global_Objects/Set/add"))
    case _ => None
  }

  /** The Set sections of the two tables list the same keys with the same links. */
  lemma SetSectionsAgree(key: string)
    ensures Link(SetDocsEn(key)) == Link(SetDocsTr(key))
  {
  }

  /** The Math entries of the English table (language.js:216-255). */
  function MathDocsEn(key: string): Option<DocEntry> {
    match key
    case "Math.max" => Some(DocEntry("Returns the largest of zero or more numbers.", "https://developer.mozilla.org/en-US/docs/Web/JavaScript/Reference/Global_Objects/Math/max"))
    case "Math.min" => Some(DocEntry("Returns the smallest of zero or more numbers.", "https://developer.mozilla.org/en-US/docs/Web/JavaScript/Reference/Global_Objects/Math/min"))
    case "Math.abs" => Some(DocEntry("Returns the absolute value of a number.", "https://developer.mozilla.org/en-US/docs/Web/JavaScript/Reference/Global_Objects/Math/abs"))
    case "Math.floor" => Some(DocEntry("Returns the largest integer less than or equal to a given number.", "https://developer.mozilla.org/en-US/docs/Web/JavaScript/Reference/Global_Objects/Math/floor"))
    case "Math.ceil" => Some(DocEntry("Returns the smallest integer greater than or equal to a given number.", "https://developer.mozilla.org/en-US/docs/Web/JavaScript/Reference/Global_Objects/Math/ceil"))
    case "Math.round" => Some(DocEntry("Returns the value of a number rounded to the nearest integer.", "https://developer.mozilla.org/en-US/docs/Web/JavaScript/Reference/Global_Objects/Math/round"))
    case "Math.trunc" => Some(DocEntry("Returns the integer part of a number by removing any fractional digits.", "https://developer.mozilla.org/en-US/docs/Web/JavaScript/Reference/Global_Objects/Math/trunc"))
    case "Math.sqrt" => Some(DocEntry("Returns the square root of a number.", "https://developer.mozilla.org/en-US/docs/Web/JavaScript/Reference/Global_Objects/Math/sqrt"))
    case "Math.pow" => Some(DocEntry("Returns the base to the exponent power, that is, base^exponent.", "https://developer.mozilla.org/en-US/docs/Web/JavaScript/Reference/Global_Objects/Math/pow"))
    case "Math.random" => Some(DocEntry("Returns a floating-point, pseudo-random number in the range 0 to less than 1.", "https://developer.mozilla.org/en-US/docs/Web/JavaScript/Reference/Global_Objects/Math/random"))
    case _ => None
  }

  /** The Math entries of the Turkish table (language.js:465-504). */
  function MathDocsTr(key: string): Option<DocEntry> {
    match key
    case "Math.max" => Some(DocEntry("Sıfır veya daha fazla sayının en büyüğünü döndürür.", "https://developer.mozilla.org/en-US/docs/Web/JavaScript/Reference/Global_Objects/Math/max"))
    case "Math.min" => Some(DocEntry("Sıfır veya daha fazla sayının en küçüğünü döndürür.", "https://developer.mozilla.org/en-US/docs/Web/JavaScript/Reference/Global_Objects/Math/min"))
    case "Math.abs" => Some(DocEntry("Bir sayının mutlak değerini döndürür.", "https://developer.mozilla.org/en-US/docs/Web/JavaScript/Reference/Global_Objects/Math/abs"))
    case "Math.floor" => Some(DocEntry("Belirli bir sayıdan küçük veya ona eşit en büyük tam sayıyı döndürür.", "https://developer.mozilla.org/en-US/docs/Web/JavaScript/Reference/Global_Objects/Math/floor"))
    case "Math.ceil" => Some(DocEntry("Belirli bir sayıdan büyük veya ona eşit en küçük tam sayıyı döndürür.", "https://developer.mozilla.org/en-US/docs/Web/JavaScript/Reference/Global_Objects/Math/ceil"))
    case "Math.round" => Some(DocEntry("Bir sayının en yakın tam sayıya yuvarlanmış değerini döndürür.", "https://developer.mozilla.org/en-US/docs/Web/JavaScript/Reference/Global_Objects/Math/round"))
    case "Math.trunc" => Some(DocEntry("Herhangi bir kesirli basamağı kaldırarak bir sayının tam sayı kısmını döndürür.", "https://developer.mozilla.org/en-US/docs/Web/JavaScript/Reference/Global_Objects/Math/trunc"))
    case "Math.sqrt" => Some(DocEntry("Bir sayının karekökünü döndürür.", "https://developer.mozilla.org/en-US/docs/Web/JavaScript/Reference/Global_Objects/Math/sqrt"))
    case "Math.pow" => Some(DocEntry("Tabanı üs kuvvetine döndürür, yani taban^üs.", "https://developer.mozilla.org/en-US/docs/Web/JavaScript/Reference/Global_Objects/Math/pow"))
    case "Math.random" => Some(DocEntry("0 ile 1'den küçük aralıkta kayan noktalı, sözde rastgele bir sayı döndürür.", "https://developer.mozilla.org/en-US/docs/Web/JavaScript/Reference/Global_Objects/Math/random"))
    case _ => None
  }

  /** The Math sections of the two tables list the same keys with the same links. */
  lemma MathSectionsAgree(key: string)
    ensures Link(MathDocsEn(key)) == Link(MathDocsTr(key))
  {
  }

  /** The Number entries of the English table (language.js:257-276). */
  function NumberDocsEn(key: string): Option<DocEntry> {
    match key
    case "Number.isInteger" => Some(DocEntry("Determines whether the passed value is an integer.", "https://developer.mozilla.org/en-US/docs/Web/JavaScript/Reference/Global_Objects/Number/isInteger"))
    case "Number.isNaN" => Some(DocEntry("Determines whether the passed value is NaN and its type is Number.", "https://developer.mozilla.org/en-US/docs/Web/JavaScript/Reference/Global_Objects/Number/isNaN"))
    case "Number.isFinite" => Some(DocEntry("Determines whether the passed value is a finite number.", "https://developer.mozilla.org/en-US/docs/Web/JavaScript/Reference/Global_Objects/Number/isFinite"))
    case "parseInt" => Some(DocEntry("Parses a string argument and returns an integer of the specified radix.", "https://developer.mozilla.org/en-US/docs/Web/JavaScript/Reference/Global_Objects/parseInt"))
    case "parseFloat" => Some(DocEntry("Parses an argument and returns a floating point number.", "https://developer.mozilla.org/en-US/docs/Web/JavaScript/Reference/Global_Objects/parseFloat"))
    case _ => None
  }

  /** The Number entries of the Turkish table (language.js:505-524). */
  function NumberDocsTr(key: string): Option<DocEntry> {
    match key
    case "Number.isInteger" => Some(DocEntry("Geçirilen değerin bir tam sayı olup olmadığını belirler.", "https://developer.mozilla.org/en-US/docs/Web/JavaScript/Reference/Global_Objects/Number/isInteger"))
    case "Number.isNaN" => Some(DocEntry("Geçirilen değerin NaN olup olmadığını ve türünün Number olup olmadığını belirler.", "https://developer.mozilla.org/en-US/docs/Web/JavaScript/Reference/Global_Objects/Number/isNaN"))
    case "Number.isFinite" => Some(DocEntry("Geçirilen değerin sonlu bir sayı olup olmadığını belirler.", "https://developer.mozilla.org/en-US/docs/Web/JavaScript/Reference/Global_Objects/Number/isFinite"))
    case "parseInt" => Some(DocEntry("Bir dize argümanını ayrıştırır ve belirtilen tabanın bir tam sayısını döndürür.", "https://developer.mozilla.org/en-US/docs/Web/JavaScript/Reference/Global_Objects/parseInt"))
    case "parseFloat" => Some(DocEntry("Bir argümanı ayrıştırır ve kayan noktalı bir sayı döndürür.", "https://developer.mozilla.org/en-US/docs/Web/JavaScript/Reference/Global_Objects/parseFloat"))
    case _ => None
  }

  /** The Number sections of the two tables list the same keys with the same links. */
  lemma NumberSectionsAgree(key: string)
    ensures Link(NumberDocsEn(key)) == Link(NumberDocsTr(key))
  {
  }

  /** methodDocsEn[key]: None when the literal has no such property. */
  function DocsEn(key: string): Option<DocEntry> {
    ArrayDocsEn(key)
      .OrElse(StringDocsEn(key))
      .OrElse(ObjectDocsEn(key))
      .OrElse(MapDocsEn(key))
      .OrElse(SetDocsEn(key))
      .OrElse(MathDocsEn(key))
      .OrElse(NumberDocsEn(key))
  }

  /** methodDocsTr[key]. */
  function DocsTr(key: string): Option<DocEntry> {
    ArrayDocsTr(key)
      .OrElse(StringDocsTr(key))
      .OrElse(ObjectDocsTr(key))
      .OrElse(MapDocsTr(key))
      .OrElse(SetDocsTr(key))
      .OrElse(MathDocsTr(key))
      .OrElse(NumberDocsTr(key))
  }

  /** The reference link of an entry, None for a missing entry. */
  function Link(e: Option<DocEntry>): (link: Option<string>)
    ensures link.Some? <==> e.Some?
  {
    if e.Some? then Some(e.value.mdn) else None
  }

  /** The two tables have the same key set and, for every key, the same
      reference link; only the descriptions differ. */
  lemma TablesShareKeysAndLinks(key: string)
    ensures Link(DocsEn(key)) == Link(DocsTr(key))
    ensures DocsEn(key).Some? <==> DocsTr(key).Some?
  {
    ArraySectionsAgree(key);
    StringSectionsAgree(key);
    ObjectSectionsAgree(key);
    MapSectionsAgree(key);
    SetSectionsAgree(key);
    MathSectionsAgree(key);
    NumberSectionsAgree(key);
  }

  /** The table a language code selects (getMethodDocs): Turkish for "tr"
      and English for every other code, including unknown ones. */
  function GetMethodDocs(lang: string): (t: DocTable)
    ensures t == Turkish <==> lang == "tr"
  {
    if lang == "tr" then Turkish else English
  }

  /** `methodDocs[key]` on the selected table, reading the literal's own
      entries only. Both tables agree on which keys have one and on their
      links, so only the description depends on the table. */
  function Lookup(t: DocTable, key: string): (doc: Option<DocEntry>)
    ensures doc.Some? <==> DocsEn(key).Some?
    ensures Link(doc) == Link(DocsEn(key))
  {
    TablesShareKeysAndLinks(key);
    match t
    case English => DocsEn(key)
    case Turkish => DocsTr(key)
  }

  /** The names every object literal inherits from Object.prototype. */
  const InheritedNames: set<string> := {
    "constructor", "hasOwnProperty", "isPrototypeOf", "propertyIsEnumerable",
    "toLocaleString", "toString", "valueOf", "__proto__",
    "__defineGetter__", "__defineSetter__", "__lookupGetter__", "__lookupSetter__"
  }

  /** `methodDocs[key]` exactly as the scripts evaluate it. The read goes
      through the prototype chain, so a key without an entry of its own that
      names an inherited member still yields a truthy value. That value, a
      function or Object.prototype itself, has neither `desc` nor `mdn`, and
      the tooltip template renders both as "undefined". Lookup is the
      intended own-entry read that the rest of the model uses. */
  function PropertyReadAsWritten(t: DocTable, key: string): (doc: Option<DocEntry>)
    ensures Lookup(t, key).Some? ==> doc == Lookup(t, key)
    ensures Lookup(t, key).None? ==> (doc.Some? <==> key in InheritedNames)
  {
    match Lookup(t, key)
    case Some(entry) => Some(entry)
    case None => if key in InheritedNames then Some(DocEntry("undefined", "undefined")) else None
  }

  /** The two readings of `methodDocs[key]` the model tells apart: the
      table's own entries only (Lookup), or through the prototype chain as the
      scripts evaluate it (PropertyReadAsWritten). */
  datatype PropertyRead = OwnEntries | PrototypeChain

  /** `methodDocs[key]` under either reading. Whichever table is selected,
      a key finds a value exactly when the English table has an own entry
      for it, or, read through the prototype chain, when it names an
      inherited member. An own entry keeps its link. */
  function ReadDoc(read: PropertyRead, t: DocTable, key: string): (doc: Option<DocEntry>)
    ensures doc.Some? <==> DocsEn(key).Some? || (read == PrototypeChain && key in InheritedNames)
    ensures DocsEn(key).Some? ==> Link(doc) == Link(DocsEn(key))
  {
    match read
    case OwnEntries => Lookup(t, key)
    case PrototypeChain => PropertyReadAsWritten(t, key)
  }

  /** An element reading `toString`, say the method of `n.toString()`, has no
      entry of its own, yet the read as written finds one. */
  lemma InheritedNameFindsEntry()
    ensures Lookup(English, "toString").None? && Lookup(Turkish, "toString").None?
    ensures PropertyReadAsWritten(English, "toString") == Some(DocEntry("undefined", "undefined"))
  {
  }

  /** Whether a key has an entry does not depend on the language. */
  lemma LookupIgnoresLanguage(lang: string, key: string)
    ensures Lookup(GetMethodDocs(lang), key).Some? <==> DocsEn(key).Some?
  {
    TablesShareKeysAndLinks(key);
  }

  /** The link caption of the tooltip (language.js:650, index.js:51). */
  function MdnLinkText(lang: string): (caption: string)
    ensures lang == "tr" ==> caption == "MDN'de G\U{00F6}r\U{00FC}nt\U{00FC}le"
    ensures lang != "tr" ==> caption == "View on MDN"
  {
    if lang == "tr" then "MDN'de G\U{00F6}r\U{00FC}nt\U{00FC}le" else "View on MDN"
  }
}
